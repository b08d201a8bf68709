/**
 The order in which s_stealwork looks at the Ps (src/rt/sched.c gcd, randord_reset, randord_start,
 randenum_next): stepping by an increment coprime to the number of Ps visits each P exactly once.
 */
module RandEnum {
  import opened Base

  ghost predicate Divides(d: nat, n: nat) {
    exists k: nat :: d * k == n
  }

  /** g is a common divisor of a and b, and every common divisor divides it. */
  ghost predicate IsGcd(g: nat, a: nat, b: nat) {
    && Divides(g, a) && Divides(g, b)
    && forall d: nat :: Divides(d, a) && Divides(d, b) ==> Divides(d, g)
  }

  lemma Grows(d: nat, i: int, j: int)
    requires i < j
    ensures d * i + d <= d * j
  {
    var k := j - i - 1;
    assert d * k >= 0;
    assert d * j == d * i + d + d * k by { assert j == i + 1 + k; }
  }

  lemma DividesSum(d: nat, a: nat, b: nat)
    requires Divides(d, a) && Divides(d, b)
    ensures Divides(d, a + b)
  {
    var i :| d * i == a;
    var j :| d * j == b;
    assert d * (i + j) == a + b;
  }

  lemma DividesTimes(d: nat, a: nat, k: nat)
    requires Divides(d, a)
    ensures Divides(d, a * k)
  {
    var i :| d * i == a;
    assert d * (i * k) == a * k;
  }

  lemma DividesDiff(d: nat, a: nat, b: nat)
    requires Divides(d, a) && Divides(d, b) && b <= a
    ensures Divides(d, a - b)
  {
    var i :| d * i == a;
    var j :| d * j == b;
    if d == 0 {
      assert d * 0 == a - b;
    } else {
      if i < j {
        Grows(d, i, j);
        assert false;
      }
      assert d * (i - j) == a - b;
    }
  }

  /** One turn of the loop keeps the common divisors. */
  lemma GcdStep(d: nat, a: nat, b: nat)
    requires b > 0
    ensures Divides(d, a) && Divides(d, b) <==> Divides(d, b) && Divides(d, a % b)
  {
    var q := a / b;
    assert a == b * q + a % b;
    if Divides(d, b) {
      DividesTimes(d, b, q);
      if Divides(d, a) { DividesDiff(d, a, b * q); }
      if Divides(d, a % b) { DividesSum(d, b * q, a % b); }
    }
  }

  lemma DividesSelf(d: nat)
    ensures Divides(d, d) && Divides(d, 0)
  {
    assert d * 1 == d && d * 0 == 0;
  }

  /** gcd */
  method Gcd(x: u32, y: u32) returns (g: u32)
    ensures IsGcd(g, x, y)
  {
    var a, b := x, y;
    while b != 0
      invariant forall d: nat :: Divides(d, a) && Divides(d, b) <==> Divides(d, x) && Divides(d, y)
      decreases b
    {
      forall d: nat ensures Divides(d, a) && Divides(d, b) <==> Divides(d, b) && Divides(d, a % b) { GcdStep(d, a, b); }
      var tmp := a % b;
      a := b;
      b := tmp;
    }
    DividesSelf(a);
    forall d: nat ensures Divides(d, 0) { DividesSelf(d); assert d * 0 == 0; }
    return a;
  }

  ghost predicate Coprime(a: nat, n: nat) {
    IsGcd(1, a, n)
  }

  /** 1 is a combination of coprime numbers. */
  lemma {:induction false} Bezout(a: nat, b: nat) returns (g: nat, x: int, y: int)
    ensures IsGcd(g, a, b) && a * x + b * y == g
    decreases b
  {
    if b == 0 {
      g, x, y := a, 1, 0;
      DividesSelf(a);
      forall d: nat ensures Divides(d, 0) { assert d * 0 == 0; }
    } else {
      var x1, y1;
      g, x1, y1 := Bezout(b, a % b);
      forall d: nat ensures Divides(d, a) && Divides(d, b) <==> Divides(d, b) && Divides(d, a % b) { GcdStep(d, a, b); }
      var q := a / b;
      assert a == b * q + a % b;
      x, y := y1, x1 - q * y1;
      assert a * y1 + b * (x1 - q * y1) == b * x1 + (a - b * q) * y1;
    }
  }

  lemma UnitFactor(g: nat, u: nat)
    requires g * u == 1
    ensures g == 1
  {
    if u > 0 { Grows(g, 0, u); }
  }

  /** A number coprime to n can be cancelled: if n divides a * d it divides d. */
  lemma Cancel(a: nat, n: nat, d: nat)
    requires n > 0 && Coprime(a, n) && Divides(n, a * d)
    ensures Divides(n, d)
  {
    var k: nat :| n * k == a * d;
    var g, x, y := Bezout(a, n);
    assert Divides(g, 1);
    var u: nat :| g * u == 1;
    UnitFactor(g, u);
    Combine(a, n, d, k, x, y);
    var m := k * x + y * d;
    if m < 0 {
      Grows(n, m, 0);
      assert false;
    }
    assert n * m == d;
  }

  lemma Combine(a: nat, n: nat, d: nat, k: nat, x: int, y: int)
    requires n * k == a * d && a * x + n * y == 1
    ensures n * (k * x + y * d) == d
  {
    calc {
      d;
      d * (a * x + n * y);
      (a * d) * x + n * (y * d);
      n * k * x + n * (y * d);
      n * (k * x + y * d);
    }
  }

  /** Where the enumeration is after k steps. */
  function PosAt(start: nat, inc: nat, count: nat, k: nat): nat
    requires count > 0
  {
    (start + k * inc) % count
  }

  /** No index comes up twice within count steps. */
  lemma NoRepeat(start: nat, inc: nat, count: nat, i: nat, j: nat)
    requires count > 0 && Coprime(inc, count) && i < j < count
    ensures PosAt(start, inc, count, i) != PosAt(start, inc, count, j)
  {
    var a, b := start + i * inc, start + j * inc;
    if a % count == b % count {
      var k := b / count - a / count;
      Apart(inc, count, i, j, a, b, k);
      if k < 0 {
        Grows(count, k, 0);
        assert false;
      }
      assert Divides(count, inc * (j - i));
      Cancel(inc, count, j - i);
      var m: nat :| count * m == j - i;
      if m > 0 { Grows(count, 0, m); }
    }
  }

  lemma Apart(inc: nat, count: nat, i: nat, j: nat, a: nat, b: nat, k: int)
    requires count > 0 && i < j && b - a == j * inc - i * inc && a % count == b % count && k == b / count - a / count
    ensures count * k == inc * (j - i) && inc * (j - i) >= 0
  {
    assert a == count * (a / count) + a % count && b == count * (b / count) + b % count;
    assert b - a == count * k;
    assert b - a == inc * (j - i);
  }

  function Range(n: nat): (s: set<nat>)
    ensures |s| == n && forall k :: k in s <==> 0 <= k < n
  {
    if n == 0 then {} else Range(n - 1) + {n - 1}
  }

  function SetOf(s: seq<nat>): set<nat> {
    set v | v in s
  }

  lemma {:induction false} SizeOf(s: seq<nat>)
    requires forall i, j :: 0 <= i < j < |s| ==> s[i] != s[j]
    ensures |SetOf(s)| == |s|
  {
    if s != [] {
      var n := |s| - 1;
      SizeOf(s[..n]);
      assert SetOf(s) == SetOf(s[..n]) + {s[n]};
    }
  }

  lemma Smaller(a: set<nat>, b: set<nat>)
    requires a < b
    ensures |a| < |b|
  {
    assert b == a + (b - a);
    assert b - a != {};
  }

  /** n distinct numbers below n are all of them. */
  lemma AllOf(s: seq<nat>, n: nat)
    requires |s| == n && (forall i :: 0 <= i < n ==> s[i] < n)
    requires forall i, j :: 0 <= i < j < n ==> s[i] != s[j]
    ensures forall v: nat :: v < n ==> v in s
  {
    SizeOf(s);
    assert SetOf(s) <= Range(n);
    if SetOf(s) != Range(n) { Smaller(SetOf(s), Range(n)); }
    forall v: nat | v < n ensures v in s { assert v in SetOf(s); }
  }

  /** RandomOrder */
  class RandomOrder {
    var count: u32
    var coprimes: seq<u32>

    ghost predicate Valid()
      reads this
    {
      && 0 < count <= 0x8000_0000
      && (forall i :: 0 <= i < |coprimes| ==> 1 <= coprimes[i] <= count && Coprime(coprimes[i], count))
      && (forall c: u32 :: 1 <= c <= count && Coprime(c, count) ==> c in coprimes)
      && coprimes != []
    }

    /** randord_reset. With more than 2^31 Ps the steps of an enumeration would wrap: see WrapMisses. */
    constructor (n: u32)
      requires 0 < n <= 0x8000_0000
      ensures Valid() && count == n
    {
      count := n;
      coprimes := [];
      new;
      var i: u32 := 1;
      while i <= n
        invariant 1 <= i <= n + 1 && count == n
        invariant forall k :: 0 <= k < |coprimes| ==> 1 <= coprimes[k] < i && Coprime(coprimes[k], n)
        invariant forall c: u32 :: 1 <= c < i && Coprime(c, n) ==> c in coprimes
        decreases n + 1 - i
      {
        var g := Gcd(i, n);
        SameGcd(g, i, n);
        if g == 1 { coprimes := coprimes + [i]; }
        i := i + 1;
      }
      OneIsCoprime(n);
      assert 1 in coprimes;
    }

    /** randord_start */
    method Start(i: u32) returns (e: RandomEnum)
      requires Valid()
      ensures fresh(e) && e.Valid() && e.i == 0 && e.count == count && e.start == i % count
      ensures e.inc == coprimes[i % |coprimes|]
    {
      e := new RandomEnum(count, i % count, coprimes[i % |coprimes|]);
    }
  }

  lemma SameGcd(g: nat, a: nat, n: nat)
    requires IsGcd(g, a, n)
    ensures g == 1 <==> Coprime(a, n)
  {
    if Coprime(a, n) {
      assert Divides(g, 1);
      var u: nat :| g * u == 1;
      UnitFactor(g, u);
    }
  }

  lemma OneIsCoprime(n: nat)
    ensures Coprime(1, n)
  {
    DividesSelf(1);
    assert 1 * n == n;
    assert Divides(1, n);
  }

  /** RandomEnum */
  class RandomEnum {
    var i: u32
    const count: u32
    var pos: u32
    const inc: u32
    ghost const start: nat

    ghost predicate Valid()
      reads this
    {
      0 < count <= 0x8000_0000 && i <= count && 1 <= inc <= count && Coprime(inc, count) && start < count
      && pos == PosAt(start, inc, count, i)
    }

    constructor (count: u32, pos: u32, inc: u32)
      requires 0 < count <= 0x8000_0000 && 1 <= inc <= count && Coprime(inc, count) && pos < count
      ensures Valid() && i == 0 && this.count == count && start == pos && this.inc == inc
    {
      this.count := count;
      this.pos := pos;
      this.inc := inc;
      start := pos;
      i := 0;
      FirstPos(pos, inc, count);
    }

    /** randenum_done */
    predicate Done()
      reads this
    {
      i == count
    }

    /** randenum_next */
    method Next()
      requires Valid() && !Done()
      modifies this
      ensures Valid() && i == old(i) + 1
    {
      NextPos(start, inc, count, i);
      i := i + 1;
      assert Add32(pos, inc) == pos + inc;
      pos := Add32(pos, inc) % count;
    }
  }

  /** With more than 2^31 Ps a step of randenum_next is right exactly when its 32-bit sum does not wrap. */
  lemma WrapMisses(pos: u32, inc: u32, count: u32)
    requires 0x8000_0000 < count && pos < count && inc <= count
    ensures Add32(pos, inc) % count == (pos + inc) % count <==> pos + inc < 0x1_0000_0000
  {
    var x := pos + inc;
    if x >= 0x1_0000_0000 {
      assert Add32(pos, inc) == x - 0x1_0000_0000;
      hide Add32;
      DivisionIsUnique(x, count, 1, x - count);
      DivisionIsUnique(x - 0x1_0000_0000, count, 0, x - 0x1_0000_0000);
    }
  }

  lemma FirstPos(start: nat, inc: nat, count: nat)
    requires start < count
    ensures PosAt(start, inc, count, 0) == start
  {
    assert 0 * inc == 0;
  }

  lemma NextPos(start: nat, inc: nat, count: nat, k: nat)
    requires count > 0
    ensures PosAt(start, inc, count, k + 1) == (PosAt(start, inc, count, k) + inc) % count
  {
    var a := start + k * inc;
    assert start + (k + 1) * inc == a + inc;
    ModAdd(a, inc, count);
  }

  lemma ModAdd(a: nat, b: nat, n: nat)
    requires n > 0
    ensures (a + b) % n == (a % n + b) % n
  {
    var q := a / n;
    assert a + b == n * q + (a % n + b);
    ModMultiple(a % n + b, q, n);
  }

  lemma {:induction false} ModMultiple(x: nat, q: nat, n: nat)
    requires n > 0
    ensures (n * q + x) % n == x % n
  {
    if q > 0 {
      ModMultiple(x, q - 1, n);
      assert n * q + x == (n * (q - 1) + x) + n;
      ModOnce(n * (q - 1) + x, n);
    }
  }

  lemma ModOnce(x: nat, n: nat)
    requires n > 0
    ensures (x + n) % n == x % n
  {
    var q, r := x / n, x % n;
    assert x + n == n * (q + 1) + r;
    DivisionIsUnique(x + n, n, q + 1, r);
  }

  lemma DivisionIsUnique(x: nat, n: nat, q: nat, r: nat)
    requires n > 0 && r < n && x == n * q + r
    ensures x / n == q && x % n == r
  {
    var q2, r2 := x / n, x % n;
    assert x == n * q2 + r2;
    assert n * q - n * q2 == r2 - r;
    assert n * (q - q2) == r2 - r;
    if q > q2 { Grows(n, 0, q - q2); }
    if q < q2 { Grows(n, q - q2, 0); }
  }

  /** The loop of s_stealwork over one enumeration: every P is looked at exactly once. */
  method VisitAll(e: RandomEnum) returns (order: seq<nat>)
    requires e.Valid() && e.i == 0
    modifies e
    ensures |order| == e.count
    ensures forall i, j :: 0 <= i < j < |order| ==> order[i] != order[j]
    ensures forall p: nat :: p < e.count <==> p in order
    ensures order[0] == old(e.pos)
  {
    order := [];
    while !e.Done()
      invariant e.Valid() && |order| == e.i
      invariant forall k :: 0 <= k < e.i ==> order[k] == PosAt(e.start, e.inc, e.count, k)
      decreases e.count - e.i
    {
      order := order + [e.pos];
      e.Next();
    }
    forall i, j | 0 <= i < j < |order| ensures order[i] != order[j] { NoRepeat(e.start, e.inc, e.count, i, j); }
    AllOf(order, e.count);
  }
}

/**
 64-bit words as numbers: what +, *, ^ and rotation of words are for the numbers the words stand for.
 */
module Numbers64 {
  import opened Base
  import opened Mixes
  function Half(x: bv64): bv64 { x >> 1 }

  /** The last bit, as a number. */
  function Bit(x: bv64): nat {
    if x & 1 == 1 then 1 else 0
  }

  /** The word that n counts up to. */
  function Word(n: nat): bv64 {
    if n == 0 then 0 else Plus64(Word(n - 1), 1)
  }

  /** The number a word stands for, bit by bit. */
  function Number(x: bv64): nat
    decreases x
  {
    if x == 0 then 0 else 2 * Number(x >> 1) + Bit(x)
  }

  /** The remainder modulo 2^64. */
  function Mod(n: int): nat { n % 0x1_0000_0000_0000_0000 }

  function Quotient(n: nat, d: nat): nat
    requires d > 0
  {
    n / d
  }

  /** 2^k */
  function Pow2(k: nat): (p: nat)
    ensures p > 0
  {
    if k == 0 then 1 else 2 * Pow2(k - 1)
  }

  lemma PowSum(a: nat, b: nat)
    ensures Pow2(a + b) == Pow2(a) * Pow2(b)
  {
    if a > 0 { PowSum(a - 1, b); }
  }

  // ---------- laws of words

  lemma PlusZero(x: bv64)
    ensures Plus64(x, 0) == x
  {
  }

  lemma TimesNext(x: bv64, y: bv64)
    ensures Times64(x, Plus64(y, 1)) == Plus64(Times64(x, y), x)
  {
    hide Times64, Plus64;
    TimesOver(x, y, 1);
    TimesOne(x);
  }

  lemma Twice(x: bv64)
    ensures x == Plus64(Plus64(Half(x), Half(x)), if Bit(x) == 1 then 1 else 0)
  {
  }

  lemma OddNext(x: bv64)
    ensures Bit(Plus64(x, 1)) == 1 - Bit(x)
  {
  }

  lemma TopBit(x: bv64)
    requires Bit(x) == 1
    ensures Times64(0x8000_0000_0000_0000, x) != 0
  {
  }

  lemma Cancels(x: bv64, y: bv64)
    requires Plus64(x, y) == x
    ensures y == 0
  {
  }

  // ---------- words of numbers

  lemma {:induction false} WordPlus(a: nat, b: nat)
    ensures Word(a + b) == Plus64(Word(a), Word(b))
  {
    hide Plus64;
    if b > 0 {
      WordPlus(a, b - 1);
      SumAssociates(Word(a), Word(b - 1), 1);
    } else {
      PlusZero(Word(a));
    }
  }

  lemma {:induction false} WordTimes(a: nat, b: nat)
    ensures Word(a * b) == Times64(Word(a), Word(b))
  {
    hide Plus64, Times64;
    if b > 0 {
      WordTimes(a, b - 1);
      assert a * b == a * (b - 1) + a;
      WordPlus(a * (b - 1), a);
      TimesNext(Word(a), Word(b - 1));
    } else {
      ZeroTimes(Word(a));
    }
  }

  lemma {:induction false} WordParity(n: nat)
    ensures Bit(Word(n)) == n % 2
  {
    hide Plus64, Bit;
    if n > 0 {
      WordParity(n - 1);
      OddNext(Word(n - 1));
    } else {
      assert Bit(0) == 0 by { ZeroBit(); }
    }
  }

  lemma ZeroBit()
    ensures Bit(0) == 0
  {
  }

  /** The words of 2^63 and 2^64, by squaring. */
  lemma Powers()
    ensures Word(0x8000_0000_0000_0000) == 0x8000_0000_0000_0000
    ensures Word(0x1_0000_0000_0000_0000) == 0
  {
    SmallPowers();
    hide Word;
    WordTimes(128, 256);
    WordTimes(0x8000, 0x1_0000);
    WordTimes(0x1_0000, 0x1_0000);
    WordTimes(0x8000_0000, 0x1_0000_0000);
    WordPlus(0x8000_0000_0000_0000, 0x8000_0000_0000_0000);
  }

  lemma SmallPowers()
    ensures Word(128) == 128 && Word(256) == 256 && Word(0x1_0000) == 0x1_0000
  {
    assert Word(1) == 1 && Word(2) == 2;
    hide Word;
    WordTimes(2, 2);
    WordTimes(4, 4);
    WordTimes(16, 4);
    WordTimes(64, 2);
    WordTimes(16, 16);
    WordTimes(256, 256);
  }

  /** A word times 0. */
  lemma ZeroTimes(x: bv64)
    ensures Times64(x, 0) == 0
  {
  }

  // ---------- which numbers have the same word

  lemma Regroup(a: nat, b: nat, c: nat)
    ensures a * (b * c) == (a * b) * c
  {
  }

  /** The last 1 bit of an odd number, moved to the top. */
  lemma OddNotZero(d: nat, j: nat)
    requires d % 2 == 1 && 1 <= j <= 64
    ensures Word(Pow2(64 - j) * d) != 0
  {
    hide Word, Times64, Bit;
    Powers();
    TopPower();
    WordParity(d);
    TopBit(Word(d));
    WordTimes(0x8000_0000_0000_0000, d);
    PowSum(j - 1, 64 - j);
    hide Pow2;
    Regroup(Pow2(j - 1), Pow2(64 - j), d);
    WordTimes(Pow2(j - 1), Pow2(64 - j) * d);
    ZeroTimes(Word(Pow2(j - 1)));
  }

  /** A number below 2^64 other than 0 has a word other than 0. */
  lemma {:induction false} NotZero(d: nat, j: nat)
    requires 0 < d < Pow2(j) && j <= 64
    ensures Word(Pow2(64 - j) * d) != 0
    decreases j
  {
    hide Word;
    if d % 2 == 1 {
      OddNotZero(d, j);
    } else {
      NotZero(d / 2, j - 1);
      Regroup(Pow2(64 - j), 2, d / 2);
    }
  }

  lemma TopPower()
    ensures Pow2(63) == 0x8000_0000_0000_0000 && Pow2(64) == 0x1_0000_0000_0000_0000 && Pow2(0) == 1
  {
    Power8();
    hide Pow2;
    PowSum(8, 8);
    PowSum(16, 16);
    PowSum(32, 16);
    PowSum(48, 8);
    PowSum(56, 7);
    PowSum(63, 1);
  }

  lemma Power8()
    ensures Pow2(0) == 1 && Pow2(1) == 2 && Pow2(7) == 128 && Pow2(8) == 256
  {
  }

  /** Numbers below 2^64 with the same word are equal. */
  lemma Injective(m: nat, n: nat)
    requires Word(m) == Word(n) && m < 0x1_0000_0000_0000_0000 && n < 0x1_0000_0000_0000_0000
    ensures m == n
  {
    hide Word, Plus64, Pow2;
    var lo, hi := if m <= n then m else n, if m <= n then n else m;
    WordPlus(lo, hi - lo);
    Cancels(Word(lo), Word(hi - lo));
    TopPower();
    if lo < hi { NotZero(hi - lo, 64); }
  }

  /** A number has the word of its remainder modulo 2^64. */
  lemma WordWraps(n: nat)
    ensures Word(n) == Word(n % 0x1_0000_0000_0000_0000)
  {
    var q, r := n / 0x1_0000_0000_0000_0000, n % 0x1_0000_0000_0000_0000;
    hide Word, Plus64, Times64;
    Powers();
    WordTimes(q, 0x1_0000_0000_0000_0000);
    ZeroTimes(Word(q));
    WordPlus(r, q * 0x1_0000_0000_0000_0000);
    PlusZero(Word(r));
  }

  // ---------- numbers of words

  lemma NumberHalf(x: bv64)
    ensures Number(Half(x)) == Number(x) / 2
    ensures Number(x) % 2 == Bit(x)
  {
  }

  /** A word without bits from 2^k on has a number below 2^k. */
  lemma {:induction false} NumberBound(x: bv64, k: nat)
    requires Shifted(x, k) == 0
    ensures Number(x) < Pow2(k)
  {
    if k > 0 { NumberBound(Half(x), k - 1); }
  }

  function Shifted(x: bv64, k: nat): bv64
    decreases k
  {
    if k == 0 then x else Shifted(x >> 1, k - 1)
  }

  lemma {:induction false} ShiftedMore(x: bv64, a: nat, b: nat)
    ensures Shifted(x, a + b) == Shifted(Shifted(x, a), b)
    decreases a
  {
    if a > 0 { ShiftedMore(Half(x), a - 1, b); }
  }

  /** No word has more than 64 bits. */
  lemma AllShifted(x: bv64)
    ensures Shifted(x, 64) == 0
  {
    calc {
      Shifted(x, 32);
      { ShiftedMore(x, 16, 16); Down16(x); }
      Shifted(x >> 16, 16);
      { Down16(x >> 16); }
      (x >> 16) >> 16;
    }
    var y := (x >> 16) >> 16;
    calc {
      Shifted(y, 32);
      { ShiftedMore(y, 16, 16); Down16(y); }
      Shifted(y >> 16, 16);
      { Down16(y >> 16); }
      (y >> 16) >> 16;
      0;
    }
    ShiftedMore(x, 32, 32);
  }

  lemma Down8(x: bv64)
    ensures Shifted(x, 8) == x >> 8
  {
  }

  lemma Down16(x: bv64)
    ensures Shifted(x, 16) == x >> 16
  {
    calc {
      Shifted(x, 16);
      { ShiftedMore(x, 8, 8); Down8(x); }
      Shifted(x >> 8, 8);
      { Down8(x >> 8); }
      (x >> 8) >> 8;
      x >> 16;
    }
  }

  lemma NumberFits(x: bv64)
    ensures Number(x) < 0x1_0000_0000_0000_0000
  {
    AllShifted(x);
    NumberBound(x, 64);
    TopPower();
  }

  lemma SmallWords()
    ensures Word(0) == 0 && Word(1) == 1
  {
  }

  /** Every word is the word of its number. */
  lemma {:induction false} WordNumber(x: bv64)
    ensures Word(Number(x)) == x
    decreases x
  {
    SmallWords();
    hide Word, Plus64, Bit;
    if x != 0 {
      WordNumber(x >> 1);
      var n := Number(x >> 1);
      assert Half(x) == x >> 1;
      WordPlus(n, n);
      WordPlus(2 * n, Bit(x));
      Twice(x);
      BitIs(x);
    }
  }

  lemma BitIs(x: bv64)
    ensures Bit(x) == 0 || Bit(x) == 1
  {
  }

  /** Every number below 2^64 is the number of its word. */
  lemma NumberWord(n: nat)
    ensures Number(Word(n)) == Mod(n)
  {
    hide Word, Number;
    WordWraps(n);
    WordNumber(Word(n));
    NumberFits(Word(n));
    Injective(Number(Word(n)), Mod(n));
  }

  /** Words are added modulo 2^64. */
  lemma NumberPlus(x: bv64, y: bv64)
    ensures Number(Plus64(x, y)) == Mod(Number(x) + Number(y))
  {
    hide Word, Number, Plus64, Mod;
    WordNumber(x);
    WordNumber(y);
    WordPlus(Number(x), Number(y));
    NumberWord(Number(x) + Number(y));
  }

  /** Words are multiplied modulo 2^64. */
  lemma NumberTimes(x: bv64, y: bv64)
    ensures Number(Times64(x, y)) == Mod(Number(x) * Number(y))
  {
    hide Word, Number, Times64, Mod;
    WordNumber(x);
    WordNumber(y);
    WordTimes(Number(x), Number(y));
    NumberWord(Number(x) * Number(y));
  }

  /** The exclusive or of two numbers, bit by bit. */
  function XorOf(a: nat, b: nat): nat {
    if a == 0 && b == 0 then 0 else 2 * XorOf(a / 2, b / 2) + if a % 2 == b % 2 then 0 else 1
  }

  lemma XorBits(x: bv64, y: bv64)
    ensures Half(Xor64(x, y)) == Xor64(Half(x), Half(y))
    ensures Bit(Xor64(x, y)) == if Bit(x) == Bit(y) then 0 else 1
  {
  }

  lemma NumberZero(x: bv64)
    ensures Number(x) == 0 <==> x == 0
  {
    WordNumber(x);
  }

  lemma {:induction false} NumberXor(x: bv64, y: bv64)
    ensures Number(Xor64(x, y)) == XorOf(Number(x), Number(y))
    decreases x, y
  {
    NumberZero(x);
    NumberZero(y);
    if x != 0 || y != 0 {
      Halved(x);
      Halved(y);
      hide Number, Xor64, Bit;
      NumberXor(Half(x), Half(y));
      XorBits(x, y);
      NumberHalf(x);
      NumberHalf(y);
      NumberHalf(Xor64(x, y));
      assert Number(Xor64(x, y)) == 2 * Number(Half(Xor64(x, y))) + Bit(Xor64(x, y));
    }
  }

  lemma Halved(x: bv64)
    ensures Half(x) < x || x == 0
  {
  }

  // ---------- rotation

  /** The number of a word with number n rotated left by k bits: what leaves at the top comes in below. */
  function Rotated(n: nat, k: nat): nat
    requires k <= 64
  {
    Mod(n * Pow2(k)) + Quotient(n, Pow2(64 - k))
  }

  function Turn(x: bv64): bv64 { (x << 1) | (x >> 63) }

  /** x rotated k times by one bit. */
  function Turned(x: bv64, k: nat): bv64
    decreases k
  {
    if k == 0 then x else Turned((x << 1) | (x >> 63), k - 1)
  }

  lemma {:induction false} TurnedMore(x: bv64, a: nat, b: nat)
    ensures Turned(x, a + b) == Turned(Turned(x, a), b)
    decreases a
  {
    if a > 0 { TurnedMore(Turn(x), a - 1, b); }
  }

  lemma Down28(x: bv64)
    ensures Shifted(x, 28) == x >> 28
  {
    calc {
      Shifted(x, 28);
      { ShiftedMore(x, 14, 14); Down14(x); }
      Shifted(x >> 14, 14);
      { Down14(x >> 14); }
      (x >> 14) >> 14;
      x >> 28;
    }
  }

  lemma Down1(x: bv64)
    ensures Shifted(x, 1) == x >> 1
  {
  }

  lemma Down5(x: bv64)
    ensures Shifted(x, 5) == x >> 5 && Shifted(x, 4) == x >> 4
  {
  }

  /** The shifts of the avalanche. */
  lemma Down29(x: bv64)
    ensures Shifted(x, 29) == x >> 29
  {
    calc {
      Shifted(x, 29);
      { ShiftedMore(x, 28, 1); Down28(x); }
      Shifted(x >> 28, 1);
      { Down1(x >> 28); }
      (x >> 28) >> 1;
      x >> 29;
    }
  }

  lemma Down32(x: bv64)
    ensures Shifted(x, 32) == x >> 32
  {
    calc {
      Shifted(x, 32);
      { ShiftedMore(x, 28, 4); Down28(x); }
      Shifted(x >> 28, 4);
      { Down5(x >> 28); }
      (x >> 28) >> 4;
      x >> 32;
    }
  }

  lemma Down33(x: bv64)
    ensures Shifted(x, 33) == x >> 33
  {
    calc {
      Shifted(x, 33);
      { ShiftedMore(x, 28, 5); Down28(x); }
      Shifted(x >> 28, 5);
      { Down5(x >> 28); }
      (x >> 28) >> 5;
      x >> 33;
    }
  }

  lemma Down47(x: bv64)
    ensures Shifted(x, 47) == x >> 47
  {
    calc {
      Shifted(x, 47);
      { ShiftedMore(x, 33, 14); Down33(x); }
      Shifted(x >> 33, 14);
      { Down14(x >> 33); }
      (x >> 33) >> 14;
      x >> 47;
    }
  }

  lemma Down35(x: bv64)
    ensures Shifted(x, 35) == x >> 35
  {
    calc {
      Shifted(x, 35);
      { ShiftedMore(x, 28, 7); Down28(x); }
      Shifted(x >> 28, 7);
      { Down7(x >> 28); }
      (x >> 28) >> 7;
      x >> 35;
    }
  }

  lemma Down63(x: bv64)
    ensures Shifted(x, 63) == x >> 63
  {
    calc {
      Shifted(x, 63);
      { ShiftedMore(x, 35, 28); Down35(x); }
      Shifted(x >> 35, 28);
      { Down28(x >> 35); }
      (x >> 35) >> 28;
      x >> 63;
    }
  }

  lemma Down14(x: bv64)
    ensures Shifted(x, 14) == x >> 14
  {
  }

  lemma Down7(x: bv64)
    ensures Shifted(x, 7) == x >> 7
  {
  }

  lemma {:induction false} NumberShifted(x: bv64, k: nat)
    ensures Number(Shifted(x, k)) == Number(x) / Pow2(k)
    decreases k
  {
    if k > 0 {
      NumberShifted(x >> 1, k - 1);
      assert Half(x) == x >> 1;
      NumberHalf(x);
      QuotientTwice(Number(x), Pow2(k - 1));
    }
  }

  lemma QuotientTwice(n: nat, p: nat)
    requires p > 0
    ensures n / 2 / p == n / (2 * p)
  {
    var q, r := n / 2 / p, n / 2 % p;
    assert n == 2 * (q * p + r) + n % 2;
    assert n == q * (2 * p) + (2 * r + n % 2);
    DivUnique(n, q, 2 * r + n % 2, 2 * p);
  }

  lemma TurnIsSum(x: bv64)
    ensures Turn(x) == Plus64(Plus64(x, x), x >> 63)
  {
    calc {
      Turn(x);
      (x << 1) | (x >> 63);
      (x << 1) + (x >> 63);
      (x + x) + (x >> 63);
      Plus64(x + x, x >> 63);
      Plus64(Plus64(x, x), x >> 63);
    }
  }

  /** The number of a word with number n rotated by one bit. */
  function RotatedOne(n: nat): nat { Mod(2 * n) + n / 0x8000_0000_0000_0000 }

  lemma NumberTurn(x: bv64)
    ensures Number(Turn(x)) == RotatedOne(Number(x))
  {
    hide Number, Plus64, Turn, Shifted, Pow2, Mod;
    TurnIsSum(x);
    Down63(x);
    NumberShifted(x, 63);
    TopPower();
    NumberFits(x);
    NumberPlus(x, x);
    NumberPlus(Plus64(x, x), x >> 63);
    EvenBelow(Number(x));
  }

  lemma EvenBelow(n: nat)
    requires n < 0x1_0000_0000_0000_0000
    ensures Mod(n + n) == Mod(2 * n) && Mod(Mod(2 * n) + n / 0x8000_0000_0000_0000) == RotatedOne(n)
  {
  }

  lemma Spread(q: nat, d: nat, t: nat, p: nat)
    ensures (q * d + t) * p == q * (d * p) + t * p
  {
    assert (q * d + t) * p == q * d * p + t * p;
    Regroup(q, d, p);
  }

  lemma Below(t: nat, d: nat, p: nat)
    requires t < d
    ensures t * p + p <= d * p
  {
    assert (t + 1) * p <= d * p;
  }

  lemma Multiples(e: nat, d: nat, p: nat)
    ensures (p + e) * d >= p * d
  {
    assert (p + e) * d == p * d + e * d;
  }

  lemma Fewer(q: nat, p: nat, d: nat, n: nat)
    requires q * d <= n < p * d
    ensures q < p
  {
    if q >= p { Multiples(q - p, d, p); }
  }

  /** What leaves a number n of 64 bits at the top when it is multiplied by p, with h * p == 2^63. */
  lemma Leaves(n: nat, p: nat, h: nat, q: nat, t: nat)
    requires h * p == 0x8000_0000_0000_0000 && n < 0x1_0000_0000_0000_0000 && p > 0
    requires n == q * (2 * h) + t && t < 2 * h
    ensures Quotient(n, 2 * h) == q < p && Mod(n * p) == t * p
  {
    Regroup(2, h, p);
    Spread(q, 2 * h, t, p);
    Below(t, 2 * h, p);
    DivUnique(n, q, t, 2 * h);
    DivUnique(n * p, q, t * p, 0x1_0000_0000_0000_0000);
    Regroup(p, 2, h);
    Fewer(q, p, 2 * h, n);
  }

  /** The pieces of a number n in front of, at and behind the bit that is the next to go round. */
  lemma Pieces(n: nat, p: nat, h: nat, q: nat, b: nat, u: nat)
    requires h * p == 0x8000_0000_0000_0000 && n < 0x1_0000_0000_0000_0000 && h > 0 && p > 0
    requires n == q * (2 * h) + (b * h + u) && u < h && b < 2
    ensures Quotient(n, 2 * h) == q && Mod(n * p) == b * 0x8000_0000_0000_0000 + u * p
    ensures Quotient(n, h) == 2 * q + b && Mod(n * (2 * p)) == 2 * (u * p)
    ensures u * p + q < 0x8000_0000_0000_0000
  {
    hide Mod, Quotient;
    assert b * h + u < 2 * h;
    Leaves(n, p, h, q, b * h + u);
    Spread(b, h, u, p);
    Below(u, h, p);
    NextPieces(n, p, h, 2 * q + b, u);
  }

  lemma NextPieces(n: nat, p: nat, h: nat, q: nat, u: nat)
    requires h * p == 0x8000_0000_0000_0000 && n == q * h + u && u < h
    ensures Quotient(n, h) == q && Mod(n * (2 * p)) == 2 * (u * p)
  {
    DivUnique(n, q, u, h);
    Spread(q, h, u, p);
    Below(u, h, p);
    assert n * (2 * p) == q * 0x1_0000_0000_0000_0000 + 2 * (u * p);
    DivUnique(n * (2 * p), q, 2 * (u * p), 0x1_0000_0000_0000_0000);
  }

  /** One more turn. */
  lemma RotatedOnce(n: nat, k: nat)
    requires k < 64 && n < 0x1_0000_0000_0000_0000
    ensures RotatedOne(Rotated(n, k)) == Rotated(n, k + 1)
  {
    var p, h := Pow2(k), Pow2(63 - k);
    Powers63(k);
    hide Pow2, Mod, Quotient, RotatedOne;
    var q, b, u := Digits(n, h);
    Pieces(n, p, h, q, b, u);
    Doubled(b, u * p, q);
    assert Rotated(n, k) == b * 0x8000_0000_0000_0000 + u * p + q;
    assert Rotated(n, k + 1) == 2 * (u * p) + (2 * q + b);
  }

  lemma Powers63(k: nat)
    requires k < 64
    ensures Pow2(64 - k) == 2 * Pow2(63 - k) && Pow2(k + 1) == 2 * Pow2(k)
    ensures Pow2(63 - k) * Pow2(k) == 0x8000_0000_0000_0000
  {
    PowSum(63 - k, k);
    TopPower();
  }

  lemma Digits(n: nat, h: nat) returns (q: nat, b: nat, u: nat)
    requires h > 0
    ensures n == q * (2 * h) + (b * h + u) && u < h && b < 2
  {
    q := n / (2 * h);
    var t := n % (2 * h);
    b, u := t / h, t % h;
    assert t == b * h + u;
    Fewer(b, 2, h, t);
  }

  lemma Doubled(b: nat, v: nat, q: nat)
    requires b < 2 && v + q < 0x8000_0000_0000_0000
    ensures RotatedOne(b * 0x8000_0000_0000_0000 + v + q) == 2 * v + (2 * q + b)
  {
  }

  lemma {:induction false} TurnedBack(x: bv64, k: nat)
    requires k > 0
    ensures Turned(x, k) == Turn(Turned(x, k - 1))
  {
    TurnedMore(x, k - 1, 1);
  }

  /** Rotating a word k times rotates its number by k. */
  lemma {:induction false} NumberTurned(x: bv64, k: nat)
    requires k <= 64
    ensures Number(Turned(x, k)) == Rotated(Number(x), k)
  {
    NumberFits(x);
    if k == 0 {
      TopPower();
    } else {
      hide Turn, Rotated, Number;
      TurnedBack(x, k);
      NumberTurned(x, k - 1);
      NumberTurn(Turned(x, k - 1));
      RotatedOnce(Number(x), k - 1);
    }
  }

  // ---------- rotations as the source writes them

  lemma Turned1(x: bv64)
    ensures Turned(x, 1) == (x << 1) | (x >> 63)
  {
  }

  lemma Turned7(x: bv64)
    ensures Turned(x, 7) == (x << 7) | (x >> 57)
  {
  }

  lemma Turned9(x: bv64)
    ensures Turned(x, 9) == (x << 9) | (x >> 55)
  {
  }

  lemma Turned11(x: bv64)
    ensures Turned(x, 11) == (x << 11) | (x >> 53)
  {
  }

  lemma Turned12(x: bv64)
    ensures Turned(x, 12) == (x << 12) | (x >> 52)
  {
  }

  lemma Turned13(x: bv64)
    ensures Turned(x, 13) == (x << 13) | (x >> 51)
  {
  }

  lemma Turned14(x: bv64)
    ensures Turned(x, 14) == (x << 14) | (x >> 50)
  {
  }

  lemma Turned18(x: bv64)
    ensures Turned(x, 18) == (x << 18) | (x >> 46)
  {
    var y := (x << 9) | (x >> 55);
    calc {
      Turned(x, 18);
      { TurnedMore(x, 9, 9); Turned9(x); }
      Turned(y, 9);
      { Turned9(y); }
      (y << 9) | (y >> 55);
      (x << 18) | (x >> 46);
    }
  }

  lemma Turned27(x: bv64)
    ensures Turned(x, 27) == (x << 27) | (x >> 37)
  {
    var y := (x << 14) | (x >> 50);
    calc {
      Turned(x, 27);
      { TurnedMore(x, 14, 13); Turned14(x); }
      Turned(y, 13);
      { Turned13(y); }
      (y << 13) | (y >> 51);
      (x << 27) | (x >> 37);
    }
  }

  lemma Turned23(x: bv64)
    ensures Turned(x, 23) == (x << 23) | (x >> 41)
  {
    var y := (x << 12) | (x >> 52);
    calc {
      Turned(x, 23);
      { TurnedMore(x, 12, 11); Turned12(x); }
      Turned(y, 11);
      { Turned11(y); }
      (y << 11) | (y >> 53);
      (x << 23) | (x >> 41);
    }
  }

  lemma Turned31(x: bv64)
    ensures Turned(x, 31) == (x << 31) | (x >> 33)
  {
    var y := (x << 18) | (x >> 46);
    calc {
      Turned(x, 31);
      { TurnedMore(x, 18, 13); Turned18(x); }
      Turned(y, 13);
      { Turned13(y); }
      (y << 13) | (y >> 51);
      (x << 31) | (x >> 33);
    }
  }

  // ---------- bytes

  lemma LowByte(x: bv64)
    ensures x == Plus64(Times64(x >> 8, 256), x & 0xff) && (x & 0xff) >> 8 == 0
  {
    calc { x; (x >> 8) * 256 + (x & 0xff); Plus64((x >> 8) * 256, x & 0xff); Plus64(Times64(x >> 8, 256), x & 0xff); }
  }

  lemma ByteBound(x: bv64)
    requires x >> 8 == 0
    ensures Number(x) < 256
  {
    Down8(x);
    NumberBound(x, 8);
    assert Pow2(8) == 256;
  }

  lemma Number256()
    ensures Number(256) == 256 && Pow2(8) == 256
  {
    SmallPowers();
    NumberWord(256);
    hide Number, Word;
  }

  /** A word's last byte is the remainder of its number modulo 256. */
  lemma NumberByte(x: bv64)
    ensures Number(x) == 256 * Number(x >> 8) + Number(x & 0xff)
  {
    LowByte(x);
    ByteBound(x & 0xff);
    Number256();
    NumberFits(x);
    Down8(x);
    hide Number, Plus64, Times64, Shifted, Pow2, Mod;
    NumberShifted(x, 8);
    NumberTimes(x >> 8, 256);
    NumberPlus(Times64(x >> 8, 256), x & 0xff);
    Appended(Number(x), Number(x & 0xff));
  }

  lemma Appended(n: nat, lo: nat)
    requires n < 0x1_0000_0000_0000_0000 && lo < 256 && n == Mod(Mod(n / 256 * 256) + lo)
    ensures n == 256 * (n / 256) + lo
  {
  }

  lemma LowHalf(x: bv64)
    ensures x == Plus64(Times64(x >> 32, 0x1_0000_0000), x & 0xffff_ffff) && (x & 0xffff_ffff) >> 32 == 0
  {
    calc {
      x;
      (x >> 32) * 0x1_0000_0000 + (x & 0xffff_ffff);
      Plus64((x >> 32) * 0x1_0000_0000, x & 0xffff_ffff);
      Plus64(Times64(x >> 32, 0x1_0000_0000), x & 0xffff_ffff);
    }
  }

  lemma HalfBound(x: bv64)
    requires x >> 32 == 0
    ensures Number(x) < 0x1_0000_0000
  {
    Down32(x);
    NumberBound(x, 32);
    ShiftPowers();
  }

  /** The two halves of a word. */
  lemma NumberHalves(x: bv64)
    ensures Number(x >> 32) == Number(x) / 0x1_0000_0000 && Number(x & 0xffff_ffff) == Number(x) % 0x1_0000_0000
  {
    LowHalf(x);
    HalfBound(x & 0xffff_ffff);
    NumberFits(x);
    Down32(x);
    ShiftPowers();
    HalfWord();
    hide Number, Plus64, Times64, Shifted, Pow2, Mod;
    NumberShifted(x, 32);
    NumberTimes(x >> 32, 0x1_0000_0000);
    NumberPlus(Times64(x >> 32, 0x1_0000_0000), x & 0xffff_ffff);
    Recombined(Number(x), Number(x & 0xffff_ffff));
  }

  lemma Recombined(n: nat, lo: nat)
    requires n < 0x1_0000_0000_0000_0000 && lo < 0x1_0000_0000
    requires n == Mod(Mod(n / 0x1_0000_0000 * 0x1_0000_0000) + lo)
    ensures lo == n % 0x1_0000_0000
  {
  }

  lemma HalfWord()
    ensures Number(0x1_0000_0000) == 0x1_0000_0000
  {
    SmallPowers();
    hide Word, Number;
    WordTimes(0x1_0000, 0x1_0000);
    NumberWord(0x1_0000_0000);
  }

  lemma ByteBits(b: bv8)
    ensures (b as nat) == 2 * ((b >> 1) as nat) + (if b & 1 == 1 then 1 else 0)
    ensures Half(b as bv64) == (b >> 1) as bv64 && Bit(b as bv64) == if b & 1 == 1 then 1 else 0
    ensures b as bv64 == 0 <==> b == 0
  {
  }

  lemma {:induction false} NumberOfByte(b: bv8)
    ensures Number(b as bv64) == b as nat
    decreases b
  {
    if b != 0 {
      ByteBits(b);
      assert b >> 1 < b;
      NumberOfByte(b >> 1);
      hide Half, Bit;
      assert Number(b as bv64) == 2 * Number(Half(b as bv64)) + Bit(b as bv64) by { NumberUnfolds(b as bv64); }
    }
  }

  lemma NumberUnfolds(x: bv64)
    ensures Number(x) == 2 * Number(Half(x)) + Bit(x)
  {
  }

  /** A word with one more byte. */
  lemma OneByteMore(x: bv64, front: bv64, last: bv8)
    requires x >> 8 == front && x & 0xff == last as bv64
    ensures Number(x) == 256 * Number(front) + last as nat
  {
    NumberByte(x);
    NumberOfByte(last);
  }

  // ---------- the avalanche of XXH64

  lemma ShiftPowers()
    ensures Pow2(29) == 0x2000_0000 && Pow2(32) == 0x1_0000_0000 && Pow2(33) == 0x2_0000_0000
  {
    assert Pow2(8) == 256 && Pow2(5) == 32 && Pow2(1) == 2;
    PowSum(8, 8);
    PowSum(16, 8);
    PowSum(24, 5);
    PowSum(16, 16);
    PowSum(32, 1);
  }

  lemma NumberShifts(x: bv64)
    ensures Number(Shift33(x)) == XorOf(Number(x), Number(x) / 0x2_0000_0000)
    ensures Number(Shift29(x)) == XorOf(Number(x), Number(x) / 0x2000_0000)
    ensures Number(Shift32(x)) == XorOf(Number(x), Number(x) / 0x1_0000_0000)
  {
    hide Number, Xor64, XorOf, Shifted, Pow2;
    ShiftPowers();
    Down29(x);
    Down32(x);
    Down33(x);
    NumberShifted(x, 29);
    NumberShifted(x, 32);
    NumberShifted(x, 33);
    NumberXor(x, Shr64By29(x));
    NumberXor(x, Shr64By32(x));
    NumberXor(x, Shr64By33(x));
  }
}

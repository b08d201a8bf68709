/** Machine words and the small shared datatypes of the model. */
module Base {
  datatype Option<+T> = None | Some(value: T)

  /** A 32-bit unsigned counter: arithmetic on it wraps and is always written out. */
  type u32 = x: int | 0 <= x < 0x1_0000_0000

  function Add32(a: u32, b: int): u32 {
    (a + b) % 0x1_0000_0000
  }

  function Sub32(a: u32, b: u32): u32 {
    (a - b) % 0x1_0000_0000
  }

  /** A task is known by its identity only. */
  type Task = nat

  /** What arrives in these pieces. */
  function Concat<T>(pieces: seq<seq<T>>): seq<T> {
    if pieces == [] then [] else Concat(pieces[..|pieces| - 1]) + pieces[|pieces| - 1]
  }

  predicate NoDup<T(==)>(s: seq<T>) {
    forall i, j :: 0 <= i < j < |s| ==> s[i] != s[j]
  }

  function Reversed<T>(s: seq<T>): (r: seq<T>)
    ensures |r| == |s|
  {
    seq(|s|, i requires 0 <= i < |s| => s[|s| - 1 - i])
  }

  /** How many of n queued tasks a thief takes: half of them, rounded up. */
  function Share(n: nat): (k: nat)
    ensures n <= 2 * k <= n + 1
  {
    n - n / 2
  }

  /** Quotient and remainder are determined by what they must satisfy. */
  lemma DivUnique(x: int, q: int, m: int, per: int)
    requires x == q * per + m && 0 <= m < per
    ensures x / per == q && x % per == m
  {
    var d := x / per - q;
    assert d * per == m - x % per;
    AtLeastOne(d, per);
    AtLeastOne(-d, per);
  }

  lemma AtLeastOne(d: int, per: int)
    ensures d >= 1 && per > 0 ==> d * per >= per
  {
  }
}

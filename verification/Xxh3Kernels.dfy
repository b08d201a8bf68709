/**
 XXH3 with the accumulate and scramble loops of module Vector in place: digests do not depend on
 whether the scalar or the vector loops are used, nor on how the input arrives.
 */
module Xxh3Kernels {
  import opened Base
  import V = Vector
  import opened Xxh3Spec
  import Xxh3Stream
  import Xxh64

  /** The eight lanes of a stripe or of 64 bytes of secret, read with XXH_readLE64. */
  function LanesOf(s: seq<byte>): V.Lanes8
    requires |s| == 64
  {
    seq(8, i requires 0 <= i < 8 => Xxh64.Read(s, 8 * i))
  }

  function Unload(a: V.V128, b: V.V128, c: V.V128, d: V.V128): V.Lanes8 {
    [a.e0, a.e1, b.e0, b.e1, c.e0, c.e1, d.e0, d.e1]
  }

  lemma Reload(s: V.Lanes8)
    ensures Unload(V.Load(s, 0), V.Load(s, 2), V.Load(s, 4), V.Load(s, 6)) == s
  {
  }

  function AccumulateAt(acc: V.Lanes8, data: V.Lanes8, secret: V.Lanes8, n: nat): V.V128
    requires n + 2 <= 8
  {
    V.AccumulateVec(V.Load(acc, n), V.Load(data, n), V.Load(secret, n))
  }

  function ScrambleAt(acc: V.Lanes8, secret: V.Lanes8, n: nat): V.V128
    requires n + 2 <= 8
  {
    V.ScrambleVec(V.Load(acc, n), V.Load(secret, n))
  }

  /** XXH3_accumulate_512_sse2, and by halves XXH3_accumulate_512_avx2, as a function of four vectors. */
  function VecAccumulated(acc: V.Lanes8, data: V.Lanes8, secret: V.Lanes8): V.Lanes8 {
    Unload(AccumulateAt(acc, data, secret, 0), AccumulateAt(acc, data, secret, 2),
           AccumulateAt(acc, data, secret, 4), AccumulateAt(acc, data, secret, 6))
  }

  function VecScrambled(acc: V.Lanes8, secret: V.Lanes8): V.Lanes8 {
    Unload(ScrambleAt(acc, secret, 0), ScrambleAt(acc, secret, 2),
           ScrambleAt(acc, secret, 4), ScrambleAt(acc, secret, 6))
  }

  /** Kernel k with the scalar loops. */
  function Scalar(k: Kernel): Kernel {
    k.(accumulate512 := (acc: Acc, stripe: seq<byte>, key: seq<byte>) =>
         if |stripe| == |key| == 64 then V.ScalarTurns(acc, LanesOf(stripe), LanesOf(key), 8) else acc,
       scramble := (acc: Acc, key: seq<byte>) => if |key| == 64 then V.Scrambled(acc, LanesOf(key)) else acc)
  }

  /** Kernel k with the vector loops. */
  function Vectorized(k: Kernel): Kernel {
    k.(accumulate512 := (acc: Acc, stripe: seq<byte>, key: seq<byte>) =>
         if |stripe| == |key| == 64 then VecAccumulated(acc, LanesOf(stripe), LanesOf(key)) else acc,
       scramble := (acc: Acc, key: seq<byte>) => if |key| == 64 then VecScrambled(acc, LanesOf(key)) else acc)
  }

  lemma AccumulateAtLanes(acc: V.Lanes8, data: V.Lanes8, secret: V.Lanes8, n: nat)
    requires n % 2 == 0 && n + 2 <= 8
    ensures AccumulateAt(acc, data, secret, n) == V.Load(V.Accumulated(acc, data, secret), n)
  {
    hide V.AccumulateVec, V.Accumulated, V.Load;
    V.AccumulateTwo(acc, acc, data, secret, n, 0);
  }

  lemma ScrambleAtLanes(acc: V.Lanes8, secret: V.Lanes8, n: nat)
    requires n + 2 <= 8
    ensures ScrambleAt(acc, secret, n) == V.Load(V.Scrambled(acc, secret), n)
  {
    hide V.ScrambleVec, V.Scrambled, V.Load;
    V.ScrambleTwo(acc, acc, secret, n, 0);
  }

  lemma SameAccumulate(acc: V.Lanes8, data: V.Lanes8, secret: V.Lanes8)
    ensures VecAccumulated(acc, data, secret) == V.ScalarTurns(acc, data, secret, 8)
  {
    hide V.Accumulate, V.ScalarTurns, AccumulateAt, Unload, V.Load;
    V.ScalarPairs(acc, data, secret, 4);
    assert V.ScalarTurns(acc, data, secret, 8) == V.Accumulated(acc, data, secret);
    hide V.Accumulated;
    AccumulateAtLanes(acc, data, secret, 0);
    AccumulateAtLanes(acc, data, secret, 2);
    AccumulateAtLanes(acc, data, secret, 4);
    AccumulateAtLanes(acc, data, secret, 6);
    Reload(V.Accumulated(acc, data, secret));
  }

  lemma SameScramble(acc: V.Lanes8, secret: V.Lanes8)
    ensures VecScrambled(acc, secret) == V.Scrambled(acc, secret)
  {
    hide V.Scrambled, ScrambleAt, Unload, V.Load;
    ScrambleAtLanes(acc, secret, 0);
    ScrambleAtLanes(acc, secret, 2);
    ScrambleAtLanes(acc, secret, 4);
    ScrambleAtLanes(acc, secret, 6);
    Reload(V.Scrambled(acc, secret));
  }

  lemma {:induction false} SameAbsorb(k: Kernel, secret: Secret, data: seq<byte>, c: nat)
    requires c * 64 <= |data|
    ensures Absorb(Vectorized(k), secret, data, c) == Absorb(Scalar(k), secret, data, c)
  {
    hide VecAccumulated, VecScrambled, V.ScalarTurns, V.Scrambled, LanesOf;
    if c > 0 {
      SameAbsorb(k, secret, data, c - 1);
      var before := Absorb(Scalar(k), secret, data, c - 1);
      var stripe, key := StripeAt(data, c - 1), Key(secret, (c - 1) % StripesPerBlock(|secret|));
      SameAccumulate(before, LanesOf(stripe), LanesOf(key));
      SameScramble(V.ScalarTurns(before, LanesOf(stripe), LanesOf(key), 8), LanesOf(LastKey(secret)));
    }
  }

  /** The digest does not depend on which loops are used. */
  lemma SameHash(k: Kernel, m: Mode, data: seq<byte>)
    ensures Hash(Vectorized(k), m, data) == Hash(Scalar(k), m, data)
  {
    hide VecAccumulated, VecScrambled, V.ScalarTurns, V.Scrambled, LanesOf, Absorb;
    if |data| > 240 {
      var secret := LongSecret(k, m);
      var c := (|data| - 1) / 64;
      SameAbsorb(k, secret, data, c);
      var lastKey := secret[|secret| - 64 - 7..|secret| - 7];
      SameAccumulate(Absorb(Scalar(k), secret, data, c), LanesOf(data[|data| - 64..]), LanesOf(lastKey));
    }
  }

  /** Streaming in any pieces with the vector loops gives the one-shot digest of the scalar loops. */
  method VectorStreamIsScalarOneShot(k: Kernel, m: Mode, chunks: seq<seq<byte>>) returns (streamed: u64, whole: u64)
    requires |Concat(chunks)| < 0x1_0000_0000_0000_0000 && (m.WithSecret? ==> |m.secret| < 0x1_0000_0000_0000_0000)
    ensures streamed == whole == Hash(Scalar(k), m, Concat(chunks))
  {
    var state := new Xxh3Stream.State();
    streamed := Xxh3Stream.Stream(Vectorized(k), state, m, chunks);
    whole := Xxh3Stream.OneShot(Scalar(k), m, Concat(chunks));
    SameHash(k, m, Concat(chunks));
  }
}

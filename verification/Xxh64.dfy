/** XXH64 of src/xxhash/xxhash.h: one-shot and streaming. */
module Xxh64 {
  import opened Base
  import opened Mixes
  import Numbers64
  import opened StripeFold

  type u64 = bv64

  datatype Lanes = Lanes(v1: u64, v2: u64, v3: u64, v4: u64)

  function Rotl(x: u64, r: nat): u64
    requires 0 < r < 64
  {
    (x << r) | (x >> (64 - r))
  }

  /** XXH_readLE32, widened */
  function Read32(s: seq<byte>, at: nat): u64
    requires at + 4 <= |s|
  {
    (s[at] as u64) | ((s[at + 1] as u64) << 8) | ((s[at + 2] as u64) << 16) | ((s[at + 3] as u64) << 24)
  }

  /** XXH_readLE64 */
  function Read(s: seq<byte>, at: nat): u64
    requires at + 8 <= |s|
  {
    Read32(s, at) | (Read32(s, at + 4) << 32)
  }

  /** XXH64_round */
  function Round(acc: u64, input: u64): u64 {
    Times64(Rotl(Plus64(acc, Times64(input, 0xC2B2AE3D27D4EB4F)), 31), 0x9E3779B185EBCA87)
  }

  /** XXH64_mergeRound */
  function MergeRound(acc: u64, val: u64): u64 {
    Plus64(Times64(Xor64(acc, Round(0, val)), 0x9E3779B185EBCA87), 0x85EBCA77C2B2AE63)
  }

  /** The four rounds of one 32-byte stripe. */
  function Stripe(v: Lanes, s: seq<byte>): Lanes {
    if |s| != 32 then v
    else Lanes(Round(v.v1, Read(s, 0)), Round(v.v2, Read(s, 8)), Round(v.v3, Read(s, 16)), Round(v.v4, Read(s, 24)))
  }

  function Initial(seed: u64): Lanes {
    Lanes(Plus64(Plus64(seed, 0x9E3779B185EBCA87), 0xC2B2AE3D27D4EB4F), Plus64(seed, 0xC2B2AE3D27D4EB4F),
          seed, Minus64(seed, 0x9E3779B185EBCA87))
  }

  function Converge(v: Lanes): u64 {
    var h := Plus64(Plus64(Plus64(Rotl(v.v1, 1), Rotl(v.v2, 7)), Rotl(v.v3, 12)), Rotl(v.v4, 18));
    MergeRound(MergeRound(MergeRound(MergeRound(h, v.v1), v.v2), v.v3), v.v4)
  }

  /** XXH64_avalanche */
  function Avalanche(h: u64): u64 {
    Shift32(Times3(Shift29(Times2(Shift33(h)))))
  }

  function Process8(h: u64, s: seq<byte>): u64
    requires |s| >= 8
  {
    Plus64(Times64(Rotl(Xor64(h, Round(0, Read(s, 0))), 27), 0x9E3779B185EBCA87), 0x85EBCA77C2B2AE63)
  }

  function Process4(h: u64, s: seq<byte>): u64
    requires |s| >= 4
  {
    var k := Times64(Read32(s, 0), 0x9E3779B185EBCA87);
    Plus64(Times64(Rotl(Xor64(h, k), 23), 0xC2B2AE3D27D4EB4F), 0x165667B19E3779F9)
  }

  function Process1(h: u64, b: byte): u64 {
    Times64(Rotl(Xor64(h, Times64(b as u64, 0x27D4EB2F165667C5)), 11), 0x9E3779B185EBCA87)
  }

  function Bytes(h: u64, t: seq<byte>): u64
    decreases |t|
  {
    if t == [] then Avalanche(h) else Bytes(Process1(h, t[0]), t[1..])
  }

  /** The rest of the input: words of 8 bytes, at most one of 4, then bytes. */
  function Finished(h: u64, t: seq<byte>): u64
    decreases |t|
  {
    if |t| >= 8 then Finished(Process8(h, t), t[8..])
    else if |t| >= 4 then Bytes(Process4(h, t), t[4..])
    else Bytes(h, t)
  }

  function AddLength(h: u64, len: u64): u64 {
    Plus64(h, len)
  }

  /** (xxh_u64)len */
  function Low(n: nat): u64 {
    Numbers64.Word(Wrap(n))
  }

  /** A length as the 64-bit counter keeps it. */
  function Wrap(n: nat): (w: nat)
    ensures w < 0x1_0000_0000_0000_0000
  {
    n % 0x1_0000_0000_0000_0000
  }

  /** Where inputs of less than a stripe start. */
  function Short(seed: u64): u64 {
    Plus64(seed, 0x27D4EB2F165667C5)
  }

  /** The length of the complete stripes of an input of n bytes. */
  function Whole(n: nat): (m: nat)
    ensures m <= n < m + 32
  {
    n / 32 * 32
  }

  lemma WholeIs(n: nat, k: nat)
    requires 32 * k <= n < 32 * k + 32
    ensures Whole(n) == 32 * k
  {
  }

  /** What XXH64 is of an input: the specification both forms meet. */
  function Hash(s: seq<byte>, seed: u64): u64 {
    var h := if |s| < 32 then Short(seed) else Converge(Fold(32, Stripe, Initial(seed), s));
    Finished(AddLength(h, Low(|s|)), s[Whole(|s|)..])
  }

  /** XXH64_finalize */
  method Finalize(h: u64, ptr: seq<byte>, len: nat) returns (r: u64)
    requires |ptr| == len % 32
    ensures r == Finished(h, ptr)
  {
    hide Process8, Process4, Process1, Avalanche;
    var n := len % 32;
    var t := ptr;
    r := h;
    while n >= 8
      invariant n == |t| && Finished(r, t) == Finished(h, ptr)
    {
      r, t := Process8(r, t), t[8..];
      n := n - 8;
    }
    if n >= 4 {
      r, t := Process4(r, t), t[4..];
      n := n - 4;
    }
    while n > 0
      invariant n == |t| < 4 && Bytes(r, t) == Finished(h, ptr)
    {
      r, t := Process1(r, t[0]), t[1..];
      n := n - 1;
    }
    return Avalanche(r);
  }

  /** One more stripe of the input, after k stripes. */
  lemma FoldNext(v0: Lanes, a: seq<byte>, k: nat, input: seq<byte>, from: nat, p: nat)
    requires from <= p && p + 32 <= |input| && |a| + (p - from) == 32 * k
    ensures Fold(32, Stripe, v0, a + input[from..p + 32])
         == Stripe(Fold(32, Stripe, v0, a + input[from..p]), input[p..p + 32])
  {
    hide Stripe, Fold;
    assert a + input[from..p + 32] == (a + input[from..p]) + input[p..p + 32];
    FoldSnoc(32, Stripe, v0, a + input[from..p], k, input[p..p + 32]);
  }

  /**
   The do-while loop over the stripes of the input from `from` on, in both forms of the hash. The lanes
   have absorbed a, which is n stripes.
   */
  method Absorb(v: Lanes, input: seq<byte>, from: nat, ghost v0: Lanes, ghost a: seq<byte>, ghost n: nat)
      returns (r: Lanes, p: nat, ghost k: nat)
    requires from + 32 <= |input| && |a| == 32 * n && v == Fold(32, Stripe, v0, a)
    ensures from < p <= |input| < p + 32 && |a| + (p - from) == 32 * k
    ensures r == Fold(32, Stripe, v0, a + input[from..p])
  {
    hide Stripe, Fold;
    r, p, k := v, from, n;
    assert a + input[from..from] == a;
    var limit := |input| - 32;
    FoldNext(v0, a, k, input, from, p);
    r := Stripe(r, input[p..p + 32]);
    p, k := p + 32, k + 1;
    while p <= limit
      invariant from < p <= |input| && |a| + (p - from) == 32 * k
      invariant r == Fold(32, Stripe, v0, a + input[from..p])
      decreases |input| - p
    {
      FoldNext(v0, a, k, input, from, p);
      r := Stripe(r, input[p..p + 32]);
      p, k := p + 32, k + 1;
    }
  }

  /** The bytes after the last complete stripe do not change the lanes. */
  lemma FoldWhole(v0: Lanes, s: seq<byte>)
    ensures Fold(32, Stripe, v0, s) == Fold(32, Stripe, v0, s[..Whole(|s|)])
  {
    var k := |s| / 32;
    WholeIs(|s|, k);
    hide Whole, Stripe, Fold;
    assert s == s[..32 * k] + s[32 * k..];
    FoldTail(32, Stripe, v0, s[..32 * k], k, s[32 * k..]);
  }

  /** XXH64_endian_align: the whole input at once. */
  method OneShot(input: seq<byte>, seed: u64) returns (r: u64)
    ensures r == Hash(input, seed)
  {
    hide Stripe, Initial, Converge, Finished, AddLength, Low, Short, Fold, Whole;
    var len := |input|;
    var p := 0;
    ghost var k := 0;
    var h;
    if len >= 32 {
      var v := Initial(seed);
      FoldEmpty(v);
      v, p, k := Absorb(v, input, 0, v, [], 0);
      assert [] + input[0..p] == input[..p];
      FoldWhole(Initial(seed), input);
      h := Converge(v);
    } else {
      h := Short(seed);
    }
    WholeIs(len, k);
    Remainder(len, k, len - p);
    h := AddLength(h, Low(len));
    r := Finalize(h, input[p..], len);
  }

  lemma FoldEmpty(v0: Lanes)
    ensures Fold(32, Stripe, v0, []) == v0
  {
  }

  /**
   What a streaming state stands for: reset with seed, it was given the input `data` in however many
   pieces. Its lanes have absorbed the complete stripes and the buffer holds the rest.
   */
  predicate Tracks(totalLen: nat, v: Lanes, buffered: seq<byte>, seed: u64, data: seq<byte>) {
    && totalLen == Wrap(|data|)
    && v == Fold(32, Stripe, Initial(seed), data[..Whole(|data|)])
    && buffered == data[Whole(|data|)..]
  }

  lemma TracksNothing(seed: u64)
    ensures Tracks(0, Initial(seed), [], seed, [])
  {
    FoldEmpty(Initial(seed));
  }

  lemma WrapAdds(n: nat, len: nat)
    ensures Wrap(Wrap(n) + len) == Wrap(n + len)
  {
  }

  lemma WrapSmall(n: nat)
    requires n < 0x1_0000_0000_0000_0000
    ensures Wrap(n) == n
  {
  }

  lemma TracksMore(totalLen: nat, v: Lanes, buffered: seq<byte>, seed: u64, data: seq<byte>,
                   input: seq<byte>, t2: nat, v2: Lanes, b2: seq<byte>)
    requires Tracks(totalLen, v, buffered, seed, data)
    requires t2 == Wrap(totalLen + |input|)
    requires v2 == Fold(32, Stripe, Initial(seed), (data + input)[..Whole(|data + input|)])
    requires b2 == (data + input)[Whole(|data + input|)..]
    ensures Tracks(t2, v2, b2, seed, data + input)
  {
    hide Stripe, Initial, Fold, Whole;
    WrapAdds(|data|, |input|);
  }

  lemma InitialThird(seed: u64)
    ensures Initial(seed).v3 == seed
  {
  }

  /** What digest computes from a state is the hash of what the state stands for. */
  lemma TracksHash(totalLen: nat, v: Lanes, buffered: seq<byte>, seed: u64, data: seq<byte>)
    requires Tracks(totalLen, v, buffered, seed, data) && |data| < 0x1_0000_0000_0000_0000
    ensures totalLen == |data|
    ensures Hash(data, seed)
         == Finished(AddLength(if totalLen >= 32 then Converge(v) else Short(v.v3), Low(totalLen)), buffered)
  {
    hide Stripe, Initial, Finished, Converge, Short, Low, AddLength, Fold, Whole, Wrap;
    InitialThird(seed);
    WrapSmall(|data|);
    FoldWhole(Initial(seed), data);
    if |data| < 32 {
      WholeIs(|data|, 0);
      FoldEmpty(Initial(seed));
      assert data[..0] == [];
    }
  }

  lemma TracksParts(totalLen: nat, v: Lanes, buffered: seq<byte>, seed: u64, data: seq<byte>)
      returns (k: nat)
    requires Tracks(totalLen, v, buffered, seed, data)
    ensures |data| == 32 * k + |buffered| && |buffered| < 32
    ensures buffered == data[32 * k..] && v == Fold(32, Stripe, Initial(seed), data[..32 * k])
  {
    k := |data| / 32;
  }

  /** XXH64_state_t */
  class State {
    var totalLen: nat
    var v: Lanes
    const mem: array<byte>
    var memsize: nat

    ghost predicate Holds(seed: u64, data: seq<byte>)
      reads this, mem
    {
      mem.Length == 32 && memsize <= 32 && Tracks(totalLen, v, mem[..memsize], seed, data)
    }

    constructor (seed: u64)
      ensures Holds(seed, []) && fresh(mem)
    {
      hide Tracks, Initial, Wrap;
      totalLen, v, memsize := 0, Initial(seed), 0;
      mem := new byte[32](_ => 0);
      new;
      TracksNothing(seed);
      assert mem[..memsize] == [];
    }

    /** XXH64_reset */
    method Reset(seed: u64)
      requires mem.Length == 32
      modifies this
      ensures Holds(seed, [])
    {
      hide Tracks, Initial;
      totalLen, v, memsize := 0, Initial(seed), 0;
      TracksNothing(seed);
      assert mem[..0] == [];
    }

    /** XXH_memcpy into the buffer. */
    method CopyIn(at: nat, src: seq<byte>)
      requires mem.Length == 32 && at + |src| <= 32
      modifies mem
      ensures mem[..at + |src|] == old(mem[..at]) + src
    {
      forall i | 0 <= i < |src| {
        mem[at + i] := src[i];
      }
    }

    /** The part of an update after the counters: complete the buffered stripe, absorb stripes, keep the rest. */
    method Feed(input: seq<byte>, ghost seed: u64, ghost data: seq<byte>, ghost n: nat) returns (ghost k: nat)
      requires mem.Length == 32 && |data| == 32 * n + memsize && memsize < 32
      requires mem[..memsize] == data[32 * n..] && v == Fold(32, Stripe, Initial(seed), data[..32 * n])
      requires memsize + |input| >= 32
      modifies this`v, this`memsize, mem
      ensures |data + input| == 32 * k + memsize && memsize < 32
      ensures mem[..memsize] == (data + input)[32 * k..]
      ensures v == Fold(32, Stripe, Initial(seed), (data + input)[..32 * k])
    {
      hide Stripe, Initial, Fold;
      var p;
      p, k := TopUp(input, seed, data, n);
      ghost var a, p0 := data + input[..p], p;
      if p <= |input| - 32 {
        v, p, k := Absorb(v, input, p, Initial(seed), a, k);
      }
      assert a + input[p0..p] == data + input[..p];
      assert data + input == (data + input[..p]) + input[p..];
      if p < |input| {
        CopyIn(0, input[p..]);
        memsize := |input| - p;
      }
    }

    /** The buffered bytes, if any, and the first of the input make a stripe. */
    method TopUp(input: seq<byte>, ghost seed: u64, ghost data: seq<byte>, ghost n: nat) returns (p: nat, ghost k: nat)
      requires mem.Length == 32 && |data| == 32 * n + memsize && memsize < 32
      requires mem[..memsize] == data[32 * n..] && v == Fold(32, Stripe, Initial(seed), data[..32 * n])
      requires memsize + |input| >= 32
      modifies this`v, this`memsize, mem
      ensures p <= |input| && memsize == 0 && |data| + p == 32 * k
      ensures v == Fold(32, Stripe, Initial(seed), data + input[..p])
    {
      hide Stripe, Initial, Fold;
      ghost var a := data[..32 * n];
      p, k := 0, n;
      if memsize > 0 {
        p := 32 - memsize;
        CopyIn(memsize, input[..p]);
        assert mem[..] == data[32 * n..] + input[..p];
        FoldSnoc(32, Stripe, Initial(seed), a, n, mem[..]);
        v := Stripe(v, mem[..]);
        a, k := a + mem[..], n + 1;
        memsize := 0;
      }
      assert a == data + input[..p];
    }

    /** An update that does not complete a stripe. */
    method Keep(input: seq<byte>, ghost data: seq<byte>)
      requires mem.Length == 32 && memsize <= |data| && memsize + |input| < 32
      requires mem[..memsize] == data[|data| - memsize..]
      modifies this`memsize, mem
      ensures memsize == old(memsize) + |input|
      ensures mem[..memsize] == (data + input)[|data| - old(memsize)..]
    {
      CopyIn(memsize, input);
      memsize := memsize + |input|;
    }

    /** XXH64_update */
    method Update(input: seq<byte>, ghost seed: u64, ghost data: seq<byte>)
      requires Holds(seed, data)
      modifies this`totalLen, this`v, this`memsize, mem
      ensures Holds(seed, data + input)
    {
      hide Stripe, Initial, Fold, Wrap, Whole, Tracks;
      ghost var t0, v0, b0 := totalLen, v, mem[..memsize];
      ghost var k := TracksParts(t0, v0, b0, seed, data);
      totalLen := Wrap(totalLen + |input|);
      if memsize + |input| < 32 {
        Keep(input, data);
        assert (data + input)[..32 * k] == data[..32 * k];
      } else {
        k := Feed(input, seed, data, k);
      }
      WholeIs(|data + input|, k);
      TracksMore(t0, v0, b0, seed, data, input, totalLen, v, mem[..memsize]);
    }

    /** XXH64_digest */
    method Digest(ghost seed: u64, ghost data: seq<byte>) returns (r: u64)
      requires Holds(seed, data) && |data| < 0x1_0000_0000_0000_0000
      ensures r == Hash(data, seed)
    {
      hide Hash, Finished, AddLength, Low, Short, Converge, Fold, Initial, Wrap, Whole;
      TracksHash(totalLen, v, mem[..memsize], seed, data);
      var h := if totalLen >= 32 then Converge(v) else Short(v.v3);
      h := AddLength(h, Low(totalLen));
      ghost var k := TracksParts(totalLen, v, mem[..memsize], seed, data);
      Remainder(|data|, k, memsize);
      r := Finalize(h, mem[..memsize], totalLen);
    }
  }

  lemma Remainder(n: nat, k: nat, r: nat)
    requires n == 32 * k + r && r < 32
    ensures n % 32 == r
  {
  }

  /** Whatever the pieces, streaming gives the one-shot hash of their concatenation. */
  method Stream(pieces: seq<seq<byte>>, seed: u64) returns (r: u64)
    requires |Concat(pieces)| < 0x1_0000_0000_0000_0000
    ensures r == Hash(Concat(pieces), seed)
  {
    hide Hash, Tracks;
    var state := new State(seed);
    var i := 0;
    while i < |pieces|
      invariant 0 <= i <= |pieces| && fresh(state) && fresh(state.mem)
      invariant state.Holds(seed, Concat(pieces[..i]))
    {
      state.Update(pieces[i], seed, Concat(pieces[..i]));
      assert pieces[..i + 1][..i] == pieces[..i];
      i := i + 1;
    }
    assert pieces[..i] == pieces;
    r := state.Digest(seed, Concat(pieces));
  }
}

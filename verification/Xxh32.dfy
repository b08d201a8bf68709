/** XXH32 of src/xxhash/xxhash.h: one-shot and streaming. */
module Xxh32 {
  import opened Base
  import opened Mixes
  import opened StripeFold

  type Word = bv32

  datatype Lanes = Lanes(v1: Word, v2: Word, v3: Word, v4: Word)

  function Rotl(x: Word, r: nat): Word
    requires 0 < r < 32
  {
    (x << r) | (x >> (32 - r))
  }

  /** XXH_readLE32 */
  function Read(s: seq<byte>, at: nat): Word
    requires at + 4 <= |s|
  {
    (s[at] as Word) | ((s[at + 1] as Word) << 8) | ((s[at + 2] as Word) << 16) | ((s[at + 3] as Word) << 24)
  }

  /** XXH32_round */
  function Round(acc: Word, input: Word): Word {
    Times32(Rotl(Plus32(acc, Times32(input, 0x85EBCA77)), 13), 0x9E3779B1)
  }

  /** The four rounds of one 16-byte stripe. */
  function Stripe(v: Lanes, s: seq<byte>): Lanes {
    if |s| != 16 then v
    else Lanes(Round(v.v1, Read(s, 0)), Round(v.v2, Read(s, 4)), Round(v.v3, Read(s, 8)), Round(v.v4, Read(s, 12)))
  }

  function Initial(seed: Word): Lanes {
    Lanes(Plus32(Plus32(seed, 0x9E3779B1), 0x85EBCA77), Plus32(seed, 0x85EBCA77), seed, Minus32(seed, 0x9E3779B1))
  }

  function Converge(v: Lanes): Word {
    Plus32(Plus32(Plus32(Rotl(v.v1, 1), Rotl(v.v2, 7)), Rotl(v.v3, 12)), Rotl(v.v4, 18))
  }

  /** XXH32_avalanche */
  function Avalanche(h: Word): Word {
    Word16(Word3(Word13(Word2(Word15(h)))))
  }

  function Process4(h: Word, s: seq<byte>): Word
    requires |s| >= 4
  {
    Times32(Rotl(Plus32(h, Times32(Read(s, 0), 0xC2B2AE3D)), 17), 0x27D4EB2F)
  }

  function Process1(h: Word, b: byte): Word {
    Times32(Rotl(Plus32(h, Times32(b as Word, 0x165667B1)), 11), 0x9E3779B1)
  }

  function Bytes(h: Word, t: seq<byte>): Word
    decreases |t|
  {
    if t == [] then Avalanche(h) else Bytes(Process1(h, t[0]), t[1..])
  }

  /** The rest of the input, by words of 4 bytes and then by bytes. */
  function Finished(h: Word, t: seq<byte>): Word
    decreases |t|
  {
    if |t| < 4 then Bytes(h, t) else Finished(Process4(h, t), t[4..])
  }

  function AddLength(h: Word, len: Word): Word {
    Plus32(h, len)
  }

  /** (xxh_u32)len */
  function Low(n: nat): Word {
    Wrap(n) as Word
  }

  /** A length as the 32-bit counter keeps it. */
  function Wrap(n: nat): (w: nat)
    ensures w < 0x1_0000_0000
  {
    n % 0x1_0000_0000
  }

  /** Where inputs of less than a stripe start. */
  function Short(seed: Word): Word {
    Plus32(seed, 0x165667B1)
  }

  /** The length of the complete stripes of an input of n bytes. */
  function Whole(n: nat): (m: nat)
    ensures m <= n < m + 16
  {
    n / 16 * 16
  }

  lemma WholeIs(n: nat, k: nat)
    requires 16 * k <= n < 16 * k + 16
    ensures Whole(n) == 16 * k
  {
  }

  /** What XXH32 is of an input: the specification both forms meet. */
  function Hash(s: seq<byte>, seed: Word): Word {
    var h := if |s| < 16 then Short(seed) else Converge(Fold(16, Stripe, Initial(seed), s));
    Finished(AddLength(h, Low(|s|)), s[Whole(|s|)..])
  }

  /** XXH32_finalize, as loops or, if not `reroll`, as the unrolled switch. */
  method Finalize(h: Word, ptr: seq<byte>, len: nat, reroll: bool) returns (r: Word)
    requires |ptr| == len % 16
    ensures r == Finished(h, ptr)
  {
    hide Process4, Process1, Avalanche;
    var n := len % 16;
    var t := ptr;
    r := h;
    if reroll {
      while n >= 4
        invariant n == |t| && Finished(r, t) == Finished(h, ptr)
      {
        r := Process4(r, t);
        t := t[4..];
        n := n - 4;
      }
      while n > 0
        invariant n == |t| < 4 && Bytes(r, t) == Finished(h, ptr)
      {
        r := Process1(r, t[0]);
        t := t[1..];
        n := n - 1;
      }
      return Avalanche(r);
    }
    // 12, 13, 14 and 15 fall through to the cases 4 below, as do 8 to 11
    if n >= 12 { r, t := Process4(r, t), t[4..]; }
    assert Finished(r, t) == Finished(h, ptr);
    if n >= 8 { r, t := Process4(r, t), t[4..]; }
    assert Finished(r, t) == Finished(h, ptr);
    if n >= 4 { r, t := Process4(r, t), t[4..]; }
    assert Finished(r, t) == Finished(h, ptr) && |t| == n % 4;
    if n % 4 >= 3 { r, t := Process1(r, t[0]), t[1..]; }
    assert Bytes(r, t) == Finished(h, ptr);
    if n % 4 >= 2 { r, t := Process1(r, t[0]), t[1..]; }
    assert Bytes(r, t) == Finished(h, ptr);
    if n % 4 >= 1 { r, t := Process1(r, t[0]), t[1..]; }
    assert Bytes(r, t) == Finished(h, ptr);
    return Avalanche(r);
  }

  /** One more stripe of the input, after k stripes. */
  lemma FoldNext(v0: Lanes, a: seq<byte>, k: nat, input: seq<byte>, from: nat, p: nat)
    requires from <= p && p + 16 <= |input| && |a| + (p - from) == 16 * k
    ensures Fold(16, Stripe, v0, a + input[from..p + 16])
         == Stripe(Fold(16, Stripe, v0, a + input[from..p]), input[p..p + 16])
  {
    hide Stripe, Fold;
    assert a + input[from..p + 16] == (a + input[from..p]) + input[p..p + 16];
    FoldSnoc(16, Stripe, v0, a + input[from..p], k, input[p..p + 16]);
  }

  /**
   The do-while loop over the stripes of the input from `from` on, in both forms of the hash. The lanes
   have absorbed a, which is n stripes.
   */
  method Absorb(v: Lanes, input: seq<byte>, from: nat, ghost v0: Lanes, ghost a: seq<byte>, ghost n: nat)
      returns (r: Lanes, p: nat, ghost k: nat)
    requires from + 16 <= |input| && |a| == 16 * n && v == Fold(16, Stripe, v0, a)
    ensures from < p <= |input| < p + 16 && |a| + (p - from) == 16 * k
    ensures r == Fold(16, Stripe, v0, a + input[from..p])
  {
    hide Stripe, Fold;
    r, p, k := v, from, n;
    assert a + input[from..from] == a;
    var limit := |input| - 16;
    FoldNext(v0, a, k, input, from, p);
    r := Stripe(r, input[p..p + 16]);
    p, k := p + 16, k + 1;
    while p <= limit
      invariant from < p <= |input| && |a| + (p - from) == 16 * k
      invariant r == Fold(16, Stripe, v0, a + input[from..p])
      decreases |input| - p
    {
      FoldNext(v0, a, k, input, from, p);
      r := Stripe(r, input[p..p + 16]);
      p, k := p + 16, k + 1;
    }
  }

  /** The bytes after the last complete stripe do not change the lanes. */
  lemma FoldWhole(v0: Lanes, s: seq<byte>)
    ensures Fold(16, Stripe, v0, s) == Fold(16, Stripe, v0, s[..Whole(|s|)])
  {
    var k := |s| / 16;
    WholeIs(|s|, k);
    hide Whole, Stripe, Fold;
    assert s == s[..16 * k] + s[16 * k..];
    FoldTail(16, Stripe, v0, s[..16 * k], k, s[16 * k..]);
  }

  /** XXH32_endian_align: the whole input at once. */
  method OneShot(input: seq<byte>, seed: Word, reroll: bool) returns (r: Word)
    ensures r == Hash(input, seed)
  {
    hide Stripe, Initial, Converge, Finished, AddLength, Low, Short, Fold, Whole;
    var len := |input|;
    var p := 0;
    ghost var k := 0;
    var h;
    if len >= 16 {
      var v := Initial(seed);
      FoldEmpty(v);
      v, p, k := Absorb(v, input, 0, v, [], 0);
      assert [] + input[0..p] == input[..p];
      FoldWhole(Initial(seed), input);
      h := Converge(v);
    } else {
      h := Short(seed);
    }
    WholeIs(len, k);
    h := AddLength(h, Low(len));
    r := Finalize(h, input[p..], len, reroll);
  }

  lemma FoldEmpty(v0: Lanes)
    ensures Fold(16, Stripe, v0, []) == v0
  {
  }

  /**
   What a streaming state stands for: reset with seed, it was given the input `data` in however many
   pieces. Its lanes have absorbed the complete stripes and the buffer holds the rest.
   */
  predicate Tracks(totalLen32: nat, largeLen: bool, v: Lanes, buffered: seq<byte>, seed: Word, data: seq<byte>) {
    && totalLen32 == Wrap(|data|)
    && largeLen == (|data| >= 16)
    && v == Fold(16, Stripe, Initial(seed), data[..Whole(|data|)])
    && buffered == data[Whole(|data|)..]
  }

  lemma TracksNothing(seed: Word)
    ensures Tracks(0, false, Initial(seed), [], seed, [])
  {
    FoldEmpty(Initial(seed));
  }

  lemma WrapAdds(n: nat, len: nat)
    ensures Wrap(Wrap(n) + len) == Wrap(n + len)
  {
  }

  lemma WrapTwice(n: nat)
    ensures Wrap(Wrap(n)) == Wrap(n)
  {
  }

  lemma WrapSmall(n: nat)
    requires n < 0x1_0000_0000
    ensures Wrap(n) == n
  {
  }

  /** The flag after len more bytes is exact, although the counter wraps. */
  lemma FlagExact(largeLen: bool, n: nat, len: nat)
    requires largeLen == (n >= 16)
    ensures (largeLen || len >= 16 || Wrap(n + len) >= 16) == (n + len >= 16)
  {
    hide Wrap;
    if n < 16 && len < 16 { WrapSmall(n + len); }
  }

  lemma TracksMore(totalLen32: nat, largeLen: bool, v: Lanes, buffered: seq<byte>, seed: Word, data: seq<byte>,
                   input: seq<byte>, t2: nat, l2: bool, v2: Lanes, b2: seq<byte>)
    requires Tracks(totalLen32, largeLen, v, buffered, seed, data)
    requires t2 == Wrap(totalLen32 + |input|) && l2 == (largeLen || |input| >= 16 || t2 >= 16)
    requires v2 == Fold(16, Stripe, Initial(seed), (data + input)[..Whole(|data + input|)])
    requires b2 == (data + input)[Whole(|data + input|)..]
    ensures Tracks(t2, l2, v2, b2, seed, data + input)
  {
    hide Stripe, Initial, Fold, Whole, Wrap;
    WrapAdds(|data|, |input|);
    FlagExact(largeLen, |data|, |input|);
  }

  lemma LowWraps(n: nat)
    ensures Low(Wrap(n)) == Low(n)
  {
    WrapTwice(n);
  }

  /** What digest computes from a state is the hash of what the state stands for. */
  lemma TracksHash(totalLen32: nat, largeLen: bool, v: Lanes, buffered: seq<byte>, seed: Word, data: seq<byte>)
    requires Tracks(totalLen32, largeLen, v, buffered, seed, data)
    ensures Hash(data, seed)
         == Finished(AddLength(if largeLen then Converge(v) else Short(v.v3), Low(totalLen32)), buffered)
  {
    assert Initial(seed).v3 == seed;
    LowWraps(|data|);
    hide Stripe, Initial, Finished, Converge, Short, Low, AddLength, Fold, Whole, Wrap;
    FoldWhole(Initial(seed), data);
    if !largeLen {
      WholeIs(|data|, 0);
      FoldEmpty(Initial(seed));
      assert data[..0] == [];
    }
  }

  lemma TracksParts(totalLen32: nat, largeLen: bool, v: Lanes, buffered: seq<byte>, seed: Word, data: seq<byte>)
      returns (k: nat)
    requires Tracks(totalLen32, largeLen, v, buffered, seed, data)
    ensures |data| == 16 * k + |buffered| && |buffered| < 16
    ensures buffered == data[16 * k..] && v == Fold(16, Stripe, Initial(seed), data[..16 * k])
  {
    k := |data| / 16;
  }

  /** XXH32_state_t */
  class State {
    var totalLen32: nat
    var largeLen: bool
    var v: Lanes
    const mem: array<byte>
    var memsize: nat

    ghost predicate Holds(seed: Word, data: seq<byte>)
      reads this, mem
    {
      mem.Length == 16 && memsize <= 16 && Tracks(totalLen32, largeLen, v, mem[..memsize], seed, data)
    }

    constructor (seed: Word)
      ensures Holds(seed, []) && fresh(mem)
    {
      hide Tracks, Initial, Wrap;
      totalLen32, largeLen, v, memsize := 0, false, Initial(seed), 0;
      mem := new byte[16](_ => 0);
      new;
      TracksNothing(seed);
      assert mem[..memsize] == [];
    }

    /** XXH32_reset */
    method Reset(seed: Word)
      requires mem.Length == 16
      modifies this
      ensures Holds(seed, [])
    {
      hide Tracks, Initial;
      totalLen32, largeLen, v, memsize := 0, false, Initial(seed), 0;
      TracksNothing(seed);
      assert mem[..0] == [];
    }

    /** XXH_memcpy into the buffer. */
    method CopyIn(at: nat, src: seq<byte>)
      requires mem.Length == 16 && at + |src| <= 16
      modifies mem
      ensures mem[..at + |src|] == old(mem[..at]) + src
    {
      forall i | 0 <= i < |src| {
        mem[at + i] := src[i];
      }
    }

    /** The part of an update after the counters: complete the buffered stripe, absorb stripes, keep the rest. */
    method Feed(input: seq<byte>, ghost seed: Word, ghost data: seq<byte>, ghost n: nat) returns (ghost k: nat)
      requires mem.Length == 16 && |data| == 16 * n + memsize && memsize < 16
      requires mem[..memsize] == data[16 * n..] && v == Fold(16, Stripe, Initial(seed), data[..16 * n])
      requires memsize + |input| >= 16
      modifies this`v, this`memsize, mem
      ensures |data + input| == 16 * k + memsize && memsize < 16
      ensures mem[..memsize] == (data + input)[16 * k..]
      ensures v == Fold(16, Stripe, Initial(seed), (data + input)[..16 * k])
    {
      hide Stripe, Initial, Fold;
      var p;
      p, k := TopUp(input, seed, data, n);
      ghost var a, p0 := data + input[..p], p;
      if p <= |input| - 16 {
        v, p, k := Absorb(v, input, p, Initial(seed), a, k);
      }
      assert a + input[p0..p] == data + input[..p];
      assert data + input == (data + input[..p]) + input[p..];
      if p < |input| {
        CopyIn(0, input[p..]);
        memsize := |input| - p;
      }
    }

    /** The buffered bytes, if any, and the first of the input make a stripe. */
    method TopUp(input: seq<byte>, ghost seed: Word, ghost data: seq<byte>, ghost n: nat) returns (p: nat, ghost k: nat)
      requires mem.Length == 16 && |data| == 16 * n + memsize && memsize < 16
      requires mem[..memsize] == data[16 * n..] && v == Fold(16, Stripe, Initial(seed), data[..16 * n])
      requires memsize + |input| >= 16
      modifies this`v, this`memsize, mem
      ensures p <= |input| && memsize == 0 && |data| + p == 16 * k
      ensures v == Fold(16, Stripe, Initial(seed), data + input[..p])
    {
      hide Stripe, Initial, Fold;
      ghost var a := data[..16 * n];
      p, k := 0, n;
      if memsize > 0 {
        p := 16 - memsize;
        CopyIn(memsize, input[..p]);
        assert mem[..] == data[16 * n..] + input[..p];
        FoldSnoc(16, Stripe, Initial(seed), a, n, mem[..]);
        v := Stripe(v, mem[..]);
        a, k := a + mem[..], n + 1;
        memsize := 0;
      }
      assert a == data + input[..p];
    }

    /** An update that does not complete a stripe. */
    method Keep(input: seq<byte>, ghost data: seq<byte>)
      requires mem.Length == 16 && memsize <= |data| && memsize + |input| < 16
      requires mem[..memsize] == data[|data| - memsize..]
      modifies this`memsize, mem
      ensures memsize == old(memsize) + |input|
      ensures mem[..memsize] == (data + input)[|data| - old(memsize)..]
    {
      CopyIn(memsize, input);
      memsize := memsize + |input|;
    }

    /** The counters of an update. */
    method Count(len: nat)
      modifies this`totalLen32, this`largeLen
      ensures totalLen32 == Wrap(old(totalLen32) + len)
      ensures largeLen == (old(largeLen) || len >= 16 || totalLen32 >= 16)
    {
      totalLen32 := Wrap(totalLen32 + len);
      largeLen := largeLen || len >= 16 || totalLen32 >= 16;
    }

    /** XXH32_update */
    method Update(input: seq<byte>, ghost seed: Word, ghost data: seq<byte>)
      requires Holds(seed, data)
      modifies this`totalLen32, this`largeLen, this`v, this`memsize, mem
      ensures Holds(seed, data + input)
    {
      hide Stripe, Initial, Fold, Wrap, Whole, Tracks;
      ghost var t0, l0, v0, b0 := totalLen32, largeLen, v, mem[..memsize];
      ghost var k := TracksParts(t0, l0, v0, b0, seed, data);
      Count(|input|);
      k := Take(input, seed, data, k);
      WholeIs(|data + input|, k);
      TracksMore(t0, l0, v0, b0, seed, data, input, totalLen32, largeLen, v, mem[..memsize]);
    }

    /** The input into lanes and buffer. */
    method Take(input: seq<byte>, ghost seed: Word, ghost data: seq<byte>, ghost n: nat) returns (ghost k: nat)
      requires mem.Length == 16 && |data| == 16 * n + memsize && memsize < 16
      requires mem[..memsize] == data[16 * n..] && v == Fold(16, Stripe, Initial(seed), data[..16 * n])
      modifies this`v, this`memsize, mem
      ensures |data + input| == 16 * k + memsize && memsize < 16
      ensures mem[..memsize] == (data + input)[16 * k..]
      ensures v == Fold(16, Stripe, Initial(seed), (data + input)[..16 * k])
    {
      hide Stripe, Initial, Fold;
      if memsize + |input| < 16 {
        k := n;
        Keep(input, data);
        assert (data + input)[..16 * k] == data[..16 * k];
      } else {
        k := Feed(input, seed, data, n);
      }
    }

    /** XXH32_digest */
    method Digest(reroll: bool, ghost seed: Word, ghost data: seq<byte>) returns (r: Word)
      requires Holds(seed, data)
      ensures r == Hash(data, seed)
    {
      hide Hash, Finished, AddLength, Low, Short, Converge, Fold, Initial, Wrap, Whole;
      TracksHash(totalLen32, largeLen, v, mem[..memsize], seed, data);
      var h := if largeLen then Converge(v) else Short(v.v3);
      h := AddLength(h, Low(totalLen32));
      r := Finalize(h, mem[..memsize], memsize, reroll);
    }
  }

  /** Whatever the pieces, streaming gives the one-shot hash of their concatenation. */
  method Stream(pieces: seq<seq<byte>>, seed: Word, reroll: bool) returns (r: Word)
    ensures r == Hash(Concat(pieces), seed)
  {
    hide Hash, Tracks;
    var state := new State(seed);
    var i := 0;
    while i < |pieces|
      invariant 0 <= i <= |pieces| && fresh(state) && fresh(state.mem)
      invariant state.Holds(seed, Concat(pieces[..i]))
    {
      state.Update(pieces[i], seed, Concat(pieces[..i]));
      assert pieces[..i + 1][..i] == pieces[..i];
      i := i + 1;
    }
    assert pieces[..i] == pieces;
    r := state.Digest(reroll, seed, Concat(pieces));
  }
}

/**
 XXH3 64-bit hashing, one-shot and streaming (src/xxhash/xxhash.h, XXH3_hashLong_internal_loop,
 XXH3_consumeStripes, XXH3_update, XXH3_digest_long and the functions around them), both proved to
 compute `Xxh3Spec.Hash`: so every way of cutting an input gives the digest of the whole.
 */
module Xxh3Stream {
  import opened Base
  import opened Xxh3Spec

  /** n stripes of input, with the secret from `secret` on: XXH3_accumulate as a function. */
  function Fold(k: Kernel, acc: Acc, input: seq<byte>, secret: seq<byte>, n: nat): Acc
    requires n * 64 <= |input|
    requires n == 0 || (n - 1) * 8 + 64 <= |secret|
  {
    if n == 0 then acc
    else
      k.accumulate512(Fold(k, acc, input, secret, n - 1), StripeAt(input, n - 1),
                      secret[(n - 1) * 8..(n - 1) * 8 + 64])
  }

  method Accumulate(k: Kernel, acc0: Acc, input: seq<byte>, secret: seq<byte>, nbStripes: nat) returns (acc: Acc)
    requires nbStripes * 64 <= |input|
    requires nbStripes == 0 || (nbStripes - 1) * 8 + 64 <= |secret|
    ensures acc == Fold(k, acc0, input, secret, nbStripes)
  {
    acc := acc0;
    for n := 0 to nbStripes
      invariant acc == Fold(k, acc0, input, secret, n)
    {
      acc := k.accumulate512(acc, input[n * 64..(n + 1) * 64],
                             secret[n * 8..n * 8 + 64]);
    }
  }

  /** Stripes that agree with data from stripe c on agree piecewise. */
  lemma Slices(input: seq<byte>, data: seq<byte>, c: nat, n: nat, t: nat)
    requires t <= n && (c + n) * 64 <= |data| && n * 64 <= |input|
    requires input[..n * 64] == data[c * 64..(c + n) * 64]
    ensures input[..t * 64] == data[c * 64..(c + t) * 64]
    ensures input[t * 64..][..(n - t) * 64] == data[(c + t) * 64..(c + n) * 64]
  {
    assert input[..t * 64] == input[..n * 64][..t * 64];
    assert input[t * 64..][..(n - t) * 64] == input[..n * 64][t * 64..];
  }

  /** Within a block, folding n stripes from the right place in the secret is absorbing n more. */
  lemma {:induction false} FoldAbsorbs(k: Kernel, secret: Secret, data: seq<byte>, c: nat, input: seq<byte>, n: nat)
    requires (c + n) * 64 <= |data| && n * 64 <= |input|
    requires input[..n * 64] == data[c * 64..(c + n) * 64]
    requires c % StripesPerBlock(|secret|) + n <= StripesPerBlock(|secret|)
    ensures var per := StripesPerBlock(|secret|);
            var acc := Fold(k, Absorb(k, secret, data, c), input, secret[(c % per) * 8..], n);
            Absorb(k, secret, data, c + n) ==
              if n > 0 && c % per + n == per then k.scramble(acc, LastKey(secret)) else acc
  {
    var per := StripesPerBlock(|secret|);
    var r := c % per;
    if n > 0 {
      var m := n - 1;
      Slices(input, data, c, n, m);
      FoldAbsorbs(k, secret, data, c, input, m);
      BlockStep(c, m, per);
      AbsorbStep(k, secret, data, c + m, r + m);
      assert StripeAt(input, m) == input[m * 64..][..(n - m) * 64];
      assert secret[r * 8..][m * 8..m * 8 + 64] == Key(secret, r + m);
    }
  }

  // ---------------------------------------------------------------------------------------------
  // One shot

  /** Stripes from the start of a block on, where the secret is unused. */
  lemma FreshSecret(k: Kernel, secret: Secret, input: seq<byte>, c: nat, m: nat)
    requires c % StripesPerBlock(|secret|) == 0 && m <= StripesPerBlock(|secret|)
    requires (c + m) * 64 <= |input|
    ensures var acc := Fold(k, Absorb(k, secret, input, c), input[c * 64..], secret, m);
            Absorb(k, secret, input, c + m) ==
              if m == StripesPerBlock(|secret|) then k.scramble(acc, LastKey(secret)) else acc
  {
    assert input[c * 64..][..m * 64] == input[c * 64..(c + m) * 64];
    assert secret[0..] == secret;
    FoldAbsorbs(k, secret, input, c, input[c * 64..], m);
  }

  /** n whole blocks, c stripes, have been absorbed and more input follows. */
  ghost predicate BlocksDone(k: Kernel, secret: Secret, input: seq<byte>, n: nat, acc: Acc) {
    var per := StripesPerBlock(|secret|);
    var c := n * per;
    && c % per == 0 && c * 64 < |input| && n * (64 * per) == c * 64
    && acc == Absorb(k, secret, input, c)
  }

  lemma NextBlock(k: Kernel, secret: Secret, input: seq<byte>, n: nat, blocks: nat, acc: Acc)
    requires BlocksDone(k, secret, input, n, acc) && n < blocks
    requires blocks * StripesPerBlock(|secret|) * 64 < |input|
    ensures var per := StripesPerBlock(|secret|);
            && n * (64 * per) + per * 64 <= |input|
            && BlocksDone(k, secret, input, n + 1,
                          k.scramble(Fold(k, acc, input[n * (64 * per)..], secret, per), LastKey(secret)))
  {
    var per := StripesPerBlock(|secret|);
    BlockOffsets(n + 1, per);
    BlocksFit(n, blocks, per, |input|);
    FreshSecret(k, secret, input, n * per, per);
  }

  lemma BlockOffsets(n: nat, per: nat)
    requires per > 0
    ensures (n * per) % per == 0 && n * (64 * per) == n * per * 64
  {
    DivUnique(n * per, n, 0, per);
  }

  method HashBlocks(k: Kernel, input: seq<byte>, secret: Secret, nbBlocks: nat) returns (acc: Acc)
    requires nbBlocks * StripesPerBlock(|secret|) * 64 < |input|
    ensures BlocksDone(k, secret, input, nbBlocks, acc)
  {
    var nbStripesPerBlock := (|secret| - 64) / 8;
    var blockLen := 64 * nbStripesPerBlock;
    acc := k.initial;
    for n := 0 to nbBlocks
      invariant BlocksDone(k, secret, input, n, acc)
    {
      NextBlock(k, secret, input, n, nbBlocks, acc);
      acc := Accumulate(k, acc, input[n * blockLen..], secret, nbStripesPerBlock);
      acc := k.scramble(acc, secret[|secret| - 64..]);
    }
  }

  method HashLong(k: Kernel, input: seq<byte>, secret: Secret) returns (h: u64)
    requires |input| > 240
    ensures h == LongHash(k, secret, input)
  {
    hide Absorb, Fold;
    var len := |input|;
    var nbStripesPerBlock := (|secret| - 64) / 8;
    var blockLen := 64 * nbStripesPerBlock;
    var nbBlocks := (len - 1) / blockLen;
    BlockCount(len, nbStripesPerBlock);
    var acc := HashBlocks(k, input, secret, nbBlocks);
    var nbStripes := ((len - 1) - blockLen * nbBlocks) / 64;
    FreshSecret(k, secret, input, nbBlocks * nbStripesPerBlock, nbStripes);
    acc := Accumulate(k, acc, input[nbBlocks * blockLen..], secret, nbStripes);
    acc := k.accumulate512(acc, input[len - 64..],
                           secret[|secret| - 64 - 7..|secret| - 7]);
    h := k.merge(acc, secret[11..], len);
  }

  /** Blocks and the stripes after the last block together are the stripes that leave a byte. */
  lemma BlockCount(len: nat, per: nat)
    requires len > 0 && per > 0
    ensures var blocks := (len - 1) / (64 * per);
            var rest := (len - 1) - 64 * per * blocks;
            && 0 <= rest < 64 * per
            && rest / 64 < per
            && blocks * per + rest / 64 == (len - 1) / 64
            && blocks * per * 64 < len
  {
    var blockLen := 64 * per;
    var blocks := (len - 1) / blockLen;
    var rest := (len - 1) % blockLen;
    assert len - 1 == blockLen * blocks + rest;
    assert blockLen * blocks == 64 * (blocks * per);
    DivUnique(len - 1, blocks * per + rest / 64, rest % 64, 64);
  }

  lemma BlocksFit(n: nat, blocks: nat, per: nat, len: nat)
    requires n < blocks && blocks * per * 64 < len
    ensures (n + 1) * per * 64 <= blocks * per * 64
    ensures (n + 1) * per == n * per + per
  {
    assert (n + 1) * per <= blocks * per;
  }

  method OneShot(k: Kernel, m: Mode, input: seq<byte>) returns (h: u64)
    ensures h == Hash(k, m, input)
  {
    if |input| <= 240 {
      return k.short(input, ShortSecret(k, m), ShortSeed(m));
    }
    match m {
      case Plain => h := HashLong(k, input, k.kSecret);
      case WithSecret(secret) => h := HashLong(k, input, secret);
      case WithSeed(seed) =>
        if seed == 0 {
          h := HashLong(k, input, k.kSecret);
        } else {
          h := HashLong(k, input, k.initCustomSecret(seed));
        }
    }
  }

  // ---------------------------------------------------------------------------------------------
  // Streaming

  /** What XXH3_consumeStripes leaves: accumulators and stripe count with n more stripes absorbed. */
  method ConsumeStripes(k: Kernel, acc0: Acc, soFar: nat, perBlock: nat, input: seq<byte>, nbStripes: nat,
                        secret: Secret, secretLimit: nat, ghost data: seq<byte>, ghost c: nat)
      returns (acc: Acc, nbStripesSoFar: nat)
    requires secretLimit == |secret| - 64 && perBlock == StripesPerBlock(|secret|)
    requires nbStripes <= perBlock
    requires (c + nbStripes) * 64 <= |data| && nbStripes * 64 <= |input|
    requires input[..nbStripes * 64] == data[c * 64..(c + nbStripes) * 64]
    requires acc0 == Absorb(k, secret, data, c) && soFar == c % perBlock
    ensures acc == Absorb(k, secret, data, c + nbStripes) && nbStripesSoFar == (c + nbStripes) % perBlock
  {
    BlockStep(c, nbStripes, perBlock);
    if perBlock - soFar <= nbStripes {
      var toEnd := perBlock - soFar;
      var after := nbStripes - toEnd;
      acc := Accumulate(k, acc0, input, secret[soFar * 8..], toEnd);
      acc := k.scramble(acc, secret[secretLimit..]);
      SplitAtBlock(k, secret, data, c, input, toEnd, after);
      acc := Accumulate(k, acc, input[toEnd * 64..], secret, after);
      nbStripesSoFar := after;
    } else {
      acc := Accumulate(k, acc0, input, secret[soFar * 8..], nbStripes);
      FoldAbsorbs(k, secret, data, c, input, nbStripes);
      nbStripesSoFar := soFar + nbStripes;
    }
  }

  /** Folding to the end of a block, scrambling, and folding on from the start of the secret. */
  lemma SplitAtBlock(k: Kernel, secret: Secret, data: seq<byte>, c: nat, input: seq<byte>, toEnd: nat, after: nat)
    requires var per := StripesPerBlock(|secret|); toEnd == per - c % per && after < per
    requires (c + toEnd + after) * 64 <= |data| && (toEnd + after) * 64 <= |input|
    requires input[..(toEnd + after) * 64] == data[c * 64..(c + toEnd + after) * 64]
    ensures var per := StripesPerBlock(|secret|);
            var acc := Fold(k, Absorb(k, secret, data, c), input, secret[(c % per) * 8..], toEnd);
            Absorb(k, secret, data, c + toEnd + after) ==
              Fold(k, k.scramble(acc, LastKey(secret)), input[toEnd * 64..], secret, after)
  {
    hide Absorb, Fold;
    Slices(input, data, c, toEnd + after, toEnd);
    FoldAbsorbs(k, secret, data, c, input, toEnd);
    BlockStep(c, toEnd, StripesPerBlock(|secret|));
    assert secret[0..] == secret;
    FoldAbsorbs(k, secret, data, c + toEnd, input[toEnd * 64..], after);
  }

  /** How many whole buffers have been consumed once n bytes have arrived: at least one byte is kept. */
  function Flushed(n: nat): nat {
    if n == 0 then 0 else (n - 1) / 256
  }

  function Pending(n: nat): (p: nat)
    ensures p <= n && p <= 256 && (n > 0 ==> p > 0)
    ensures n == Flushed(n) * 256 + p
  {
    n - Flushed(n) * 256
  }

  /** buf after a memcpy of src to offset `at`. */
  function Overwrite(buf: seq<byte>, at: nat, src: seq<byte>): (r: seq<byte>)
    requires at + |src| <= |buf|
    ensures |r| == |buf|
  {
    buf[..at] + src + buf[at + |src|..]
  }

  /** The end of the buffer, from `from` on, still holds the last bytes consumed. */
  ghost predicate TailKept(buf: seq<byte>, consumed: seq<byte>, from: nat) {
    && |buf| == 256 <= |consumed|
    && forall i :: 256 - 64 <= i < 256 && from <= i ==>
         buf[i] == consumed[|consumed| - 256 + i]
  }

  /** The buffer, with `size` bytes in use, after the bytes of `data`. */
  ghost predicate BufferOk(buf: seq<byte>, size: nat, data: seq<byte>) {
    && |buf| == 256
    && size == Pending(|data|)
    && buf[..size] == data[|data| - size..]
    && (Flushed(|data|) > 0 ==> TailKept(buf, data[..|data| - size], size))
  }

  /** The accumulators and the stripe counter after c stripes of `data`. */
  ghost predicate AccOk(k: Kernel, secret: Secret, data: seq<byte>, c: nat, acc: Acc, soFar: nat) {
    && c * 64 <= |data|
    && acc == Absorb(k, secret, data, c)
    && soFar == c % StripesPerBlock(|secret|)
  }

  lemma FlushedIs(n: nat, q: nat)
    requires q * 256 < n <= (q + 1) * 256
    ensures Flushed(n) == q && Pending(n) == n - q * 256
  {
    DivUnique(n - 1, q, n - 1 - q * 256, 256);
  }

  lemma AppendedBuffer(buf: seq<byte>, size: nat, data: seq<byte>, input: seq<byte>)
    requires BufferOk(buf, size, data) && size + |input| <= 256
    ensures BufferOk(Overwrite(buf, size, input), size + |input|, data + input)
    ensures Flushed(|data + input|) == Flushed(|data|)
  {
    var buf2 := Overwrite(buf, size, input);
    var all, size2 := data + input, size + |input|;
    AppendedCount(|data|, |input|);
    assert buf2[..size2] == data[|data| - size..] + input;
    assert all[|all| - size2..] == data[|data| - size..] + input;
    assert all[..|all| - size2] == data[..|data| - size];
    forall i | size2 <= i < 256
      ensures buf2[i] == buf[i]
    {
      assert buf2[i] == buf[size2..][i - size2];
    }
  }

  lemma AppendedCount(n: nat, more: nat)
    requires Pending(n) + more <= 256
    ensures Flushed(n + more) == Flushed(n) && Pending(n + more) == Pending(n) + more
  {
    if n + more > 0 {
      FlushedIs(n + more, Flushed(n));
    }
  }

  /** A buffer completed with p bytes of input is the next 256 bytes, and keeps their last stripe. */
  lemma FilledBuffer(buf: seq<byte>, data: seq<byte>, input: seq<byte>, p: nat)
    requires p <= |input| && Pending(|data|) + p == 256
    requires buf == data[|data| - Pending(|data|)..] + input[..p]
    ensures var from := Flushed(|data|) * 256;
            && from + 256 == |data| + p
            && buf[..256] == (data + input)[from..from + 256]
    ensures TailKept(buf, data + input[..p], 0)
  {
    var consumed := data + input[..p];
    assert buf == consumed[|consumed| - 256..];
    assert consumed == (data + input)[..|data| + p];
    assert buf[..256] == buf;
  }

  /** The last stripe copied over the end of the buffer. */
  lemma CopiedTail(buf: seq<byte>, consumed: seq<byte>)
    requires |buf| == 256 <= |consumed|
    requires buf[256 - 64..] == consumed[|consumed| - 64..]
    ensures TailKept(buf, consumed, 0)
  {
    forall i | 256 - 64 <= i < 256
      ensures buf[i] == consumed[|consumed| - 256 + i]
    {
      assert buf[i] == buf[256 - 64..][i - (256 - 64)];
    }
  }

  /** Bytes written at the start of the buffer leave its end. */
  lemma TailStays(buf: seq<byte>, consumed: seq<byte>, rest: seq<byte>)
    requires TailKept(buf, consumed, 0) && |rest| <= 256
    ensures Overwrite(buf, 0, rest)[..|rest|] == rest && TailKept(Overwrite(buf, 0, rest), consumed, |rest|)
  {
  }

  /** The rest of the input, put at the start of the buffer. */
  lemma RestBuffered(buf: seq<byte>, data: seq<byte>, input: seq<byte>, p: nat, q: nat)
    requires p < |input| <= p + 256 && |data| + p == q * 256 && q > 0
    requires TailKept(buf, data + input[..p], 0)
    ensures |buf| == 256
    ensures BufferOk(Overwrite(buf, 0, input[p..]), |input| - p, data + input) && Flushed(|data + input|) == q
  {
    var all, rest := data + input, input[p..];
    TailStays(buf, data + input[..p], rest);
    FlushedIs(|all|, q);
    hide TailKept, Flushed, Pending;
    assert all[|all| - |rest|..] == rest;
    assert all[..|all| - |rest|] == data + input[..p];
  }

  /** Up to 240 bytes are all still in the buffer. */
  lemma ShortBuffered(buf: seq<byte>, size: nat, data: seq<byte>)
    requires BufferOk(buf, size, data) && |data| <= 240
    ensures buf[..|data|] == data
  {
    assert Flushed(|data|) == 0;
  }

  /** An empty buffer means that no input has arrived. */
  lemma NothingYet(k: Kernel, secret: Secret, buf: seq<byte>, data: seq<byte>, input: seq<byte>, acc: Acc, soFar: nat)
    requires BufferOk(buf, 0, data) && AccOk(k, secret, data, 4 * Flushed(|data|), acc, soFar)
    ensures |data| == 0 && AccOk(k, secret, data + input, 0, acc, soFar)
  {
  }

  /** Nothing buffered, nothing absorbed. */
  lemma NothingAbsorbed(k: Kernel, secret: Secret, buf: seq<byte>)
    requires |buf| == 256
    ensures BufferOk(buf, 0, []) && AccOk(k, secret, [], 4 * Flushed(0), k.initial, 0)
  {
    assert Flushed(0) == 0 && Pending(0) == 0;
    assert buf[..0] == [];
  }

  /** XXH3_state_t. */
  class State {
    var acc: Acc
    var customSecret: DefaultSecret
    const buffer: array<byte>
    var bufferedSize: nat
    var nbStripesSoFar: nat
    var totalLen: nat                        // modulo 2^64
    var nbStripesPerBlock: nat
    var secretLimit: int
    var seed: u64
    var extSecret: Option<seq<byte>>         // None is NULL: use customSecret

    /** What every reset may rely on: a nonzero seed is the seed of customSecret. */
    ghost predicate Valid(k: Kernel)
      reads this
    {
      buffer.Length == 256 && (seed != 0 ==> customSecret == k.initCustomSecret(seed))
    }

    function CurrentSecret(): seq<byte>
      reads this
    {
      match extSecret
      case None => customSecret
      case Some(s) => s
    }

    /** The secret in use and the sizes derived from it. */
    ghost predicate Keyed(secret: Secret)
      reads this
    {
      && buffer.Length == 256
      && CurrentSecret() == secret
      && secretLimit == |secret| - 64
      && nbStripesPerBlock == StripesPerBlock(|secret|)
    }

    /** What has arrived since the reset is `data`, and it is being hashed with `secret`. */
    ghost predicate Absorbed(k: Kernel, secret: Secret, data: seq<byte>)
      reads this, buffer
    {
      && Keyed(secret)
      && totalLen == |data| < 0x1_0000_0000_0000_0000
      && BufferOk(buffer[..], bufferedSize, data)
      && AccOk(k, secret, data, 4 * Flushed(|data|), acc, nbStripesSoFar)
    }

    /** The state after a reset in mode m followed by updates with the bytes of `data`. */
    ghost predicate Holds(k: Kernel, m: Mode, data: seq<byte>)
      reads this, buffer
    {
      && Valid(k)
      && seed == ShortSeed(m) && (seed == 0 ==> LongSecret(k, m) == ShortSecret(k, m))
      && Absorbed(k, LongSecret(k, m), data)
    }

    /** XXH3_createState: only the seed is initialised. */
    constructor ()
      ensures seed == 0 && fresh(this) && fresh(buffer) && buffer.Length == 256
    {
      buffer := new byte[256];
      seed := 0;
    }

    method ResetInternal(k: Kernel, newSeed: u64, ext: Option<seq<byte>>, secretSize: nat)
      requires secretSize < 0x1_0000_0000_0000_0000
      modifies this
      ensures seed == newSeed && extSecret == ext && customSecret == old(customSecret)
      ensures acc == k.initial && bufferedSize == nbStripesSoFar == totalLen == 0
      ensures secretLimit == (secretSize - 64) % 0x1_0000_0000_0000_0000 && nbStripesPerBlock == secretLimit / 8
      ensures buffer.Length == 256 && |CurrentSecret()| == secretSize >= 136 ==> Absorbed(k, CurrentSecret(), [])
    {
      bufferedSize, nbStripesSoFar, totalLen := 0, 0, 0;
      acc := k.initial;
      seed := newSeed;
      extSecret := ext;
      secretLimit := (secretSize - 64) % 0x1_0000_0000_0000_0000;
      nbStripesPerBlock := secretLimit / 8;
      if buffer.Length == 256 && |CurrentSecret()| == secretSize >= 136 {
        NothingAbsorbed(k, CurrentSecret(), buffer[..]);
        assert Keyed(CurrentSecret());
      }
    }

    method Reset(k: Kernel)
      requires Valid(k)
      modifies this
      ensures Holds(k, Plain, [])
    {
      ResetInternal(k, 0, Some(k.kSecret), 192);
    }

    method ResetWithSecret(k: Kernel, secret: seq<byte>) returns (ok: bool)
      requires Valid(k) && |secret| < 0x1_0000_0000_0000_0000
      modifies this
      ensures Valid(k)
      ensures ok <==> |secret| >= 136
      ensures ok ==> Holds(k, WithSecret(secret), [])
    {
      ResetInternal(k, 0, Some(secret), |secret|);
      ok := |secret| >= 136;
    }

    method ResetWithSeed(k: Kernel, s: u64)
      requires Valid(k)
      modifies this
      ensures Holds(k, WithSeed(s), [])
    {
      if s == 0 {
        ResetInternal(k, 0, Some(k.kSecret), 192);
      } else {
        if s != seed {
          customSecret := k.initCustomSecret(s);
        }
        ResetInternal(k, s, None, 192);
      }
    }

    /** memcpy into the buffer. */
    method CopyIn(at: nat, src: seq<byte>)
      requires buffer.Length == 256 && at + |src| <= 256
      modifies buffer
      ensures buffer[..] == Overwrite(old(buffer[..]), at, src)
    {
      forall i | 0 <= i < |src| {
        buffer[at + i] := src[i];
      }
    }

    /** XXH3_update, when what is pending and the new input together fit the buffer. */
    method Append(k: Kernel, input: seq<byte>, ghost secret: Secret, ghost data: seq<byte>)
      requires Absorbed(k, secret, data) && |data| + |input| < 0x1_0000_0000_0000_0000
      requires bufferedSize + |input| <= 256
      modifies this`totalLen, this`bufferedSize, buffer
      ensures Absorbed(k, secret, data + input)
    {
      AppendedBuffer(buffer[..], bufferedSize, data, input);
      AbsorbPrefix(k, secret, data, input, 4 * Flushed(|data|));
      totalLen := (totalLen + |input|) % 0x1_0000_0000_0000_0000;
      CopyIn(bufferedSize, input);
      bufferedSize := bufferedSize + |input|;
    }

    /** XXH3_consumeStripes on the next 256 bytes, which is how XXH3_update always calls it. */
    method ConsumeBuffer(k: Kernel, input: seq<byte>, secret: Secret, ghost all: seq<byte>, ghost q: nat)
      requires Keyed(secret) && |input| >= 256 && (q + 1) * 256 <= |all|
      requires input[..256] == all[q * 256..(q + 1) * 256]
      requires AccOk(k, secret, all, 4 * q, acc, nbStripesSoFar)
      modifies this`acc, this`nbStripesSoFar
      ensures AccOk(k, secret, all, 4 * (q + 1), acc, nbStripesSoFar)
    {
      assert input[..4 * 64] == all[4 * q * 64..(4 * q + 4) * 64];
      acc, nbStripesSoFar :=
        ConsumeStripes(k, acc, nbStripesSoFar, nbStripesPerBlock, input, 4, secret, secretLimit, all, 4 * q);
    }

    /** The last stripe consumed, kept at the end of the buffer. */
    method KeepStripe(input: seq<byte>, p: nat, ghost data: seq<byte>)
      requires buffer.Length == 256 && 256 <= p <= |input|
      modifies buffer
      ensures TailKept(buffer[..], data + input[..p], 0)
    {
      CopyIn(256 - 64, input[p - 64..p]);
      ghost var consumed := data + input[..p];
      assert consumed[|consumed| - 64..] == input[p - 64..p];
      CopiedTail(buffer[..], consumed);
    }

    /** XXH3_update, completing the buffer with the start of the input and consuming it. */
    method Flush(k: Kernel, input: seq<byte>, secret: Secret, ghost data: seq<byte>) returns (p: nat)
      requires Keyed(secret) && BufferOk(buffer[..], bufferedSize, data)
      requires AccOk(k, secret, data, 4 * Flushed(|data|), acc, nbStripesSoFar)
      requires bufferedSize + |input| > 256 && bufferedSize > 0
      modifies this`acc, this`nbStripesSoFar, this`bufferedSize, buffer
      ensures p == 256 - old(bufferedSize) && p < |input|
      ensures |data| + p == (Flushed(|data|) + 1) * 256
      ensures AccOk(k, secret, data + input, 4 * (Flushed(|data|) + 1), acc, nbStripesSoFar)
      ensures TailKept(buffer[..], data + input[..p], 0)
    {
      p := 256 - bufferedSize;
      CopyIn(bufferedSize, input[..p]);
      AbsorbPrefix(k, secret, data, input, 4 * Flushed(|data|));
      assert buffer[..] == data[|data| - bufferedSize..] + input[..p];
      FilledBuffer(buffer[..], data, input, p);
      ConsumeBuffer(k, buffer[..], secret, data + input, Flushed(|data|));
      bufferedSize := 0;
    }

    /** XXH3_update, consuming whole buffers straight from the input and keeping the last stripe. */
    method ConsumeDirect(k: Kernel, input: seq<byte>, from: nat, secret: Secret, ghost data: seq<byte>, ghost q0: nat)
        returns (p: nat, ghost q: nat)
      requires Keyed(secret) && from + 256 < |input|
      requires |data| + from == q0 * 256
      requires AccOk(k, secret, data + input, 4 * q0, acc, nbStripesSoFar)
      modifies this`acc, this`nbStripesSoFar, buffer
      ensures from + 256 <= p < |input| <= p + 256 && |data| + p == q * 256
      ensures AccOk(k, secret, data + input, 4 * q, acc, nbStripesSoFar)
      ensures TailKept(buffer[..], data + input[..p], 0)
    {
      ghost var all := data + input;
      p, q := from, q0;
      while p + 256 < |input|
        invariant from <= p < |input| && |data| + p == q * 256
        invariant p == from || p >= from + 256
        invariant AccOk(k, secret, all, 4 * q, acc, nbStripesSoFar)
      {
        assert input[p..][..256] == all[q * 256..(q + 1) * 256];
        ConsumeBuffer(k, input[p..], secret, all, q);
        p, q := p + 256, q + 1;
      }
      KeepStripe(input, p, data);
    }

    /** XXH3_update, consuming all of the input but the part that stays buffered. */
    method Consume(k: Kernel, input: seq<byte>, secret: Secret, ghost data: seq<byte>) returns (p: nat, ghost q: nat)
      requires Keyed(secret) && BufferOk(buffer[..], bufferedSize, data)
      requires AccOk(k, secret, data, 4 * Flushed(|data|), acc, nbStripesSoFar)
      requires bufferedSize + |input| > 256
      modifies this`acc, this`nbStripesSoFar, this`bufferedSize, buffer
      ensures p < |input| <= p + 256 && |data| + p == q * 256 && q > 0
      ensures AccOk(k, secret, data + input, 4 * q, acc, nbStripesSoFar)
      ensures TailKept(buffer[..], data + input[..p], 0)
    {
      hide AccOk, TailKept, BufferOk;
      p, q := 0, 0;
      if bufferedSize > 0 {
        p := Flush(k, input, secret, data);
        q := Flushed(|data|) + 1;
      } else {
        NothingYet(k, secret, buffer[..], data, input, acc, nbStripesSoFar);
      }
      if p + 256 < |input| {
        p, q := ConsumeDirect(k, input, p, secret, data, q);
      }
    }

    /** XXH3_update, buffering what is left of the input. */
    method BufferRest(k: Kernel, input: seq<byte>, p: nat, ghost secret: Secret, ghost data: seq<byte>, ghost q: nat)
      requires Keyed(secret) && totalLen == |data| + |input| < 0x1_0000_0000_0000_0000
      requires p < |input| <= p + 256 && |data| + p == q * 256 && q > 0
      requires AccOk(k, secret, data + input, 4 * q, acc, nbStripesSoFar)
      requires TailKept(buffer[..], data + input[..p], 0)
      modifies this`bufferedSize, buffer
      ensures Absorbed(k, secret, data + input)
    {
      RestBuffered(buffer[..], data, input, p, q);
      CopyIn(0, input[p..]);
      bufferedSize := |input| - p;
    }

    /** XXH3_update, whatever the mode of the reset. */
    method UpdateKeyed(k: Kernel, input: seq<byte>, secret: Secret, ghost data: seq<byte>)
      requires Absorbed(k, secret, data) && |data| + |input| < 0x1_0000_0000_0000_0000
      modifies this`totalLen, this`acc, this`nbStripesSoFar, this`bufferedSize, buffer
      ensures Absorbed(k, secret, data + input)
    {
      hide AccOk, TailKept, BufferOk, Flushed;
      if bufferedSize + |input| <= 256 {
        Append(k, input, secret, data);
      } else {
        totalLen := (totalLen + |input|) % 0x1_0000_0000_0000_0000;
        var p, q := Consume(k, input, secret, data);
        BufferRest(k, input, p, secret, data, q);
      }
    }

    /** XXH3_update. */
    method Update(k: Kernel, input: seq<byte>, ghost m: Mode, ghost data: seq<byte>)
      requires Holds(k, m, data) && |data| + |input| < 0x1_0000_0000_0000_0000
      modifies this, buffer
      ensures Holds(k, m, data + input)
    {
      UpdateKeyed(k, input, CurrentSecret(), data);
    }

    /** XXH3_digest_long: the accumulators with everything absorbed, on a copy. */
    method DigestLong(k: Kernel, secret: Secret, ghost data: seq<byte>) returns (a: Acc)
      requires Absorbed(k, secret, data) && |data| > 240
      ensures a == k.accumulate512(Absorb(k, secret, data, (|data| - 1) / 64), data[|data| - 64..],
                                   secret[|secret| - 64 - 7..|secret| - 7])
    {
      var lastKey := secret[secretLimit - 7..secretLimit - 7 + 64];
      ghost var c := 4 * Flushed(|data|);
      a := acc;
      StripesLeft(|data|);
      if bufferedSize >= 64 {
        var nbStripes := (bufferedSize - 1) / 64;
        assert buffer[..nbStripes * 64] == data[c * 64..(c + nbStripes) * 64] by {
          assert buffer[..nbStripes * 64] == buffer[..bufferedSize][..nbStripes * 64];
        }
        var soFar;
        a, soFar := ConsumeStripes(k, a, nbStripesSoFar, nbStripesPerBlock, buffer[..], nbStripes, secret,
                                   secretLimit, data, c);
        assert buffer[bufferedSize - 64..bufferedSize] == data[|data| - 64..] by {
          assert buffer[bufferedSize - 64..bufferedSize] == buffer[..bufferedSize][bufferedSize - 64..];
        }
        a := k.accumulate512(a, buffer[bufferedSize - 64..bufferedSize], lastKey);
      } else {
        var catchupSize := 64 - bufferedSize;
        var lastStripe := buffer[256 - catchupSize..] + buffer[..bufferedSize];
        LastStripe(buffer[..], bufferedSize, data);
        a := k.accumulate512(a, lastStripe, lastKey);
      }
    }

    /** XXH3_64bits_digest of up to 240 bytes, read back from the buffer. */
    method DigestShort(k: Kernel, secret: Secret, ghost data: seq<byte>) returns (h: u64)
      requires Absorbed(k, secret, data) && |data| <= 240
      ensures h == k.short(data, if seed != 0 then k.kSecret else secret, seed)
    {
      ShortBuffered(buffer[..], bufferedSize, data);
      assert buffer[..totalLen] == buffer[..][..totalLen];
      if seed != 0 {
        h := OneShot(k, WithSeed(seed), buffer[..totalLen]);
      } else {
        assert secret[..secretLimit + 64] == secret;
        h := OneShot(k, WithSecret(secret[..secretLimit + 64]), buffer[..totalLen]);
      }
    }

    /** XXH3_64bits_digest. The state is left as it is. */
    method Digest(k: Kernel, ghost m: Mode, ghost data: seq<byte>) returns (h: u64)
      requires Holds(k, m, data)
      ensures h == Hash(k, m, data)
    {
      var secret: Secret := CurrentSecret();
      if totalLen > 240 {
        var a := DigestLong(k, secret, data);
        h := k.merge(a, secret[11..], totalLen);
      } else {
        h := DigestShort(k, secret, data);
      }
    }
  }

  /** Whole buffers and the stripes pending after them are the stripes that leave a byte. */
  lemma StripesLeft(n: nat)
    requires n > 0
    ensures 4 * Flushed(n) + (Pending(n) - 1) / 64 == (n - 1) / 64
  {
    var q, r := Flushed(n), Pending(n) - 1;
    DivUnique(n - 1, 4 * q + r / 64, r % 64, 64);
  }

  /** With less than a stripe pending, the last 64 bytes are the end of the buffer and then its start. */
  lemma LastStripe(buf: seq<byte>, size: nat, data: seq<byte>)
    requires BufferOk(buf, size, data) && |data| > 240 && size < 64
    ensures buf[256 - (64 - size)..] + buf[..size] == data[|data| - 64..]
    ensures (|data| - 1) / 64 == 4 * Flushed(|data|)
  {
    StripesLeft(|data|);
    var consumed := data[..|data| - size];
    var from := 256 - (64 - size);
    forall i | from <= i < 256
      ensures buf[i] == data[|data| - 64 + (i - from)]
    {
      assert buf[i] == consumed[|consumed| - 256 + i];
    }
    assert buf[from..] == data[|data| - 64..|data| - size];
  }

  lemma {:induction false} ConcatLength(chunks: seq<seq<byte>>, n: nat)
    requires n <= |chunks|
    ensures |Concat(chunks[..n])| <= |Concat(chunks)|
  {
    if n < |chunks| {
      ConcatLength(chunks[..|chunks| - 1], n);
      assert chunks[..|chunks| - 1][..n] == chunks[..n];
    } else {
      assert chunks[..n] == chunks;
    }
  }

  /**
   A state used before or not, reset in any mode and fed the input in any pieces, digests to the hash
   of the whole input.
   */
  method Stream(k: Kernel, state: State, m: Mode, chunks: seq<seq<byte>>) returns (h: u64)
    requires state.Valid(k) && |Concat(chunks)| < 0x1_0000_0000_0000_0000
    requires m.WithSecret? ==> |m.secret| < 0x1_0000_0000_0000_0000
    modifies state, state.buffer
    ensures state.Valid(k) && h == Hash(k, m, Concat(chunks))
  {
    StartMode(k, state, m);
    for i := 0 to |chunks|
      invariant state.Holds(k, m, Concat(chunks[..i]))
    {
      Piece(chunks, i);
      state.Update(k, chunks[i], m, Concat(chunks[..i]));
    }
    assert chunks[..|chunks|] == chunks;
    h := state.Digest(k, m, Concat(chunks));
  }

  lemma Piece(chunks: seq<seq<byte>>, i: nat)
    requires i < |chunks|
    ensures Concat(chunks[..i + 1]) == Concat(chunks[..i]) + chunks[i] && |Concat(chunks[..i + 1])| <= |Concat(chunks)|
  {
    assert chunks[..i + 1][..i] == chunks[..i];
    ConcatLength(chunks, i + 1);
  }

  method StartMode(k: Kernel, state: State, m: Mode)
    requires state.Valid(k) && (m.WithSecret? ==> |m.secret| < 0x1_0000_0000_0000_0000)
    modifies state
    ensures state.Holds(k, m, [])
  {
    match m {
      case Plain => state.Reset(k);
      case WithSecret(secret) => var ok := state.ResetWithSecret(k, secret);
      case WithSeed(seed) => state.ResetWithSeed(k, seed);
    }
  }

  /** Streaming in any pieces and hashing in one shot agree. */
  method StreamingIsOneShot(k: Kernel, m: Mode, chunks: seq<seq<byte>>) returns (streamed: u64, whole: u64)
    requires |Concat(chunks)| < 0x1_0000_0000_0000_0000 && (m.WithSecret? ==> |m.secret| < 0x1_0000_0000_0000_0000)
    ensures streamed == whole == Hash(k, m, Concat(chunks))
  {
    var state := new State();
    streamed := Stream(k, state, m, chunks);
    whole := OneShot(k, m, Concat(chunks));
  }
}

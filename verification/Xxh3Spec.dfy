/**
 What an XXH3 64-bit digest of a long input is, stripe by stripe, independently of how the input
 arrives: the accumulators absorb one 64-byte stripe after another, each with the next 8 bytes of the
 secret, and are scrambled each time the secret has been used up. The accumulate, scramble, merge and
 short-input functions are parameters (`Kernel`), as the first two are in the source.
 */
module Xxh3Spec {
  import opened Base

  type byte = bv8
  type u64 = bv64

  // The sizes of the source are written as numbers: a stripe (XXH_STRIPE_LEN) is 64 bytes and uses up 8
  // bytes of secret (XXH_SECRET_CONSUME_RATE); secrets have at least 136 bytes (XXH3_SECRET_SIZE_MIN), the
  // default one 192; the buffer of a state has 256 (XXH3_INTERNALBUFFER_SIZE), four stripes; inputs up to
  // 240 bytes (XXH3_MIDSIZE_MAX) are short; the last stripe uses the secret 7 bytes before its end
  // (XXH_SECRET_LASTACC_START), and merging uses it from byte 11 on (XXH_SECRET_MERGEACCS_START).


  type Acc = a: seq<u64> | |a| == 8 witness [0, 0, 0, 0, 0, 0, 0, 0]
  type DefaultSecret = s: seq<byte> | |s| == 192 witness seq(192, _ => 0)
  type Secret = s: seq<byte> | |s| >= 136 witness seq(136, _ => 0)

  datatype Kernel = Kernel(
    initial: Acc,                                          // XXH3_INIT_ACC
    kSecret: DefaultSecret,                                // XXH3_kSecret
    accumulate512: (Acc, seq<byte>, seq<byte>) -> Acc,     // accumulators, stripe, 64 secret bytes
    scramble: (Acc, seq<byte>) -> Acc,                     // accumulators, last 64 secret bytes
    merge: (Acc, seq<byte>, nat) -> u64,                   // XXH3_mergeAccs, secret from 11 on, length
    short: (seq<byte>, seq<byte>, u64) -> u64,             // XXH3_64bits_internal up to 240 bytes
    initCustomSecret: u64 -> DefaultSecret)

  /** The three entry points XXH3_64bits, _withSecret and _withSeed. */
  datatype Mode = Plain | WithSecret(secret: Secret) | WithSeed(seed: u64)

  /** The secret that long inputs are hashed with. */
  function LongSecret(k: Kernel, m: Mode): Secret {
    match m
    case Plain => k.kSecret
    case WithSecret(s) => s
    case WithSeed(seed) => if seed == 0 then k.kSecret else k.initCustomSecret(seed)
  }

  function ShortSecret(k: Kernel, m: Mode): Secret {
    match m
    case WithSecret(s) => s
    case _ => k.kSecret
  }

  function ShortSeed(m: Mode): u64 {
    match m
    case WithSeed(seed) => seed
    case _ => 0
  }

  function StripesPerBlock(secretSize: nat): (n: nat)
    requires secretSize >= 136
    ensures n >= 9 && (n - 1) * 8 + 64 <= secretSize
  {
    (secretSize - 64) / 8
  }

  /** The 64 bytes of secret used by stripe i of a block. */
  function Key(secret: Secret, i: nat): seq<byte>
    requires i < StripesPerBlock(|secret|)
  {
    secret[i * 8..i * 8 + 64]
  }

  function LastKey(secret: Secret): seq<byte> {
    secret[|secret| - 64..]
  }

  function StripeAt(data: seq<byte>, i: nat): seq<byte>
    requires (i + 1) * 64 <= |data|
  {
    data[i * 64..(i + 1) * 64]
  }

  /** The accumulators after the first c stripes of data. */
  function Absorb(k: Kernel, secret: Secret, data: seq<byte>, c: nat): Acc
    requires c * 64 <= |data|
  {
    if c == 0 then k.initial
    else
      var per := StripesPerBlock(|secret|);
      var acc := k.accumulate512(Absorb(k, secret, data, c - 1), StripeAt(data, c - 1), Key(secret, (c - 1) % per));
      if c % per == 0 then k.scramble(acc, LastKey(secret)) else acc
  }

  /** Every stripe that leaves at least one byte is absorbed; the last 64 bytes then use their own key. */
  function LongHash(k: Kernel, secret: Secret, data: seq<byte>): u64
    requires |data| > 240
  {
    var acc := Absorb(k, secret, data, (|data| - 1) / 64);
    var lastKey := secret[|secret| - 64 - 7..|secret| - 7];
    k.merge(k.accumulate512(acc, data[|data| - 64..], lastKey), secret[11..], |data|)
  }

  function Hash(k: Kernel, m: Mode, data: seq<byte>): u64 {
    if |data| <= 240 then k.short(data, ShortSecret(k, m), ShortSeed(m))
    else LongHash(k, LongSecret(k, m), data)
  }

  /** One more stripe, stripe r of its block. */
  lemma AbsorbStep(k: Kernel, secret: Secret, data: seq<byte>, c: nat, r: nat)
    requires (c + 1) * 64 <= |data| && r == c % StripesPerBlock(|secret|)
    ensures var acc := k.accumulate512(Absorb(k, secret, data, c), StripeAt(data, c), Key(secret, r));
            Absorb(k, secret, data, c + 1) ==
              if r + 1 == StripesPerBlock(|secret|) then k.scramble(acc, LastKey(secret)) else acc
  {
    BlockStep(c, 1, StripesPerBlock(|secret|));
  }

  /** Absorbing depends only on the bytes absorbed. */
  lemma {:induction false} AbsorbPrefix(k: Kernel, secret: Secret, data: seq<byte>, more: seq<byte>, c: nat)
    requires c * 64 <= |data|
    ensures Absorb(k, secret, data, c) == Absorb(k, secret, data + more, c)
  {
    if c > 0 {
      AbsorbPrefix(k, secret, data, more, c - 1);
      assert StripeAt(data, c - 1) == StripeAt(data + more, c - 1);
    }
  }

  /** Counting stripes modulo a block. */
  lemma BlockStep(c: nat, n: nat, per: nat)
    requires 0 < per && n <= per
    ensures (c + n) % per == if c % per + n < per then c % per + n else c % per + n - per
  {
    var q, m := c / per, c % per;
    assert c == q * per + m;
    if m + n < per {
      DivUnique(c + n, q, m + n, per);
    } else {
      assert c + n == (q + 1) * per + (m + n - per);
      DivUnique(c + n, q + 1, m + n - per, per);
    }
  }
}

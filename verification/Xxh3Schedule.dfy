/**
 XXH3 digests seen from outside: in which order, on which bytes of the input and with which bytes of which
 secret the functions of a kernel are called, for every kernel. Nothing else about the kernel is used, so this
 is all that a digest depends on.
 */
module Xxh3Schedule {
  import opened Base
  import opened Xxh3Spec

  /** A call of accumulate512 on a stripe, or of scramble. */
  datatype Event = Take(stripe: seq<byte>, key: seq<byte>) | Mix(key: seq<byte>)

  /** The accumulators after the calls in evs. */
  function Play(k: Kernel, evs: seq<Event>): Acc {
    if evs == [] then k.initial
    else
      var before := Play(k, evs[..|evs| - 1]);
      match evs[|evs| - 1]
      case Take(stripe, key) => k.accumulate512(before, stripe, key)
      case Mix(key) => k.scramble(before, key)
  }

  /** How many stripes use up a secret: each moves on by 8 bytes and needs 64. */
  function Turns(secret: Secret): (n: nat)
    ensures n >= 9 && 8 * n + 64 <= |secret| < 8 * n + 72
  {
    (|secret| - 64) / 8
  }

  /** How many calls are made for the first c stripes: one each, and a scramble after each full turn. */
  function Calls(secret: Secret, c: nat): nat {
    c + c / Turns(secret)
  }

  /** e is call j for data: the calls come in groups, a turn of stripes and a scramble. */
  predicate IsCall(secret: Secret, data: seq<byte>, j: nat, e: Event) {
    var per := Turns(secret);
    var i, r := j - j / (per + 1), j % (per + 1);
    if r == per then e == Mix(secret[|secret| - 64..])
    else
      && (i + 1) * 64 <= |data|
      && e == Take(data[i * 64..(i + 1) * 64], secret[r * 8..r * 8 + 64])
  }

  lemma Grouped(c: nat, per: nat)
    requires per > 0
    ensures var j := c + c / per; j / (per + 1) == c / per && j % (per + 1) == c % per
    ensures (c + 1) % per == 0 ==>
      var j := c + c / per + 1; j / (per + 1) == c / per && j % (per + 1) == per && (c + 1) / per == c / per + 1
    ensures (c + 1) % per != 0 ==> (c + 1) / per == c / per
  {
    var q, r := c / per, c % per;
    assert c == q * per + r;
    assert c + q == q * (per + 1) + r;
    DivUnique(c + q, q, r, per + 1);
    if r + 1 == per {
      DivUnique(c + q + 1, q, per, per + 1);
      assert c + 1 == (q + 1) * per;
      DivUnique(c + 1, q + 1, 0, per);
    } else {
      DivUnique(c + 1, q, r + 1, per);
    }
  }

  predicate AreCalls(secret: Secret, data: seq<byte>, evs: seq<Event>) {
    forall j :: 0 <= j < |evs| ==> IsCall(secret, data, j, evs[j])
  }

  lemma OneMore(k: Kernel, secret: Secret, data: seq<byte>, evs: seq<Event>, e: Event)
    requires AreCalls(secret, data, evs) && IsCall(secret, data, |evs|, e)
    ensures AreCalls(secret, data, evs + [e])
    ensures Play(k, evs + [e]) ==
      match e
      case Take(stripe, key) => k.accumulate512(Play(k, evs), stripe, key)
      case Mix(key) => k.scramble(Play(k, evs), key)
  {
    assert (evs + [e])[..|evs|] == evs;
    hide IsCall;
  }

  /** Stripe c is the last one of a turn. */
  predicate EndsTurn(secret: Secret, c: nat) { (c + 1) % Turns(secret) == 0 }

  /** The call for stripe c, the next one. */
  lemma NextTake(secret: Secret, data: seq<byte>, c: nat) returns (e: Event)
    requires (c + 1) * 64 <= |data|
    ensures IsCall(secret, data, Calls(secret, c), e)
    ensures e == Take(StripeAt(data, c), Key(secret, c % Turns(secret)))
  {
    Grouped(c, Turns(secret));
    e := Take(StripeAt(data, c), Key(secret, c % Turns(secret)));
  }

  /** And the scramble after it, if it ends a turn. */
  lemma NextMix(secret: Secret, data: seq<byte>, c: nat)
    ensures EndsTurn(secret, c) ==>
      IsCall(secret, data, Calls(secret, c) + 1, Mix(LastKey(secret))) && Calls(secret, c + 1) == Calls(secret, c) + 2
    ensures !EndsTurn(secret, c) ==> Calls(secret, c + 1) == Calls(secret, c) + 1
  {
    Grouped(c, Turns(secret));
  }

  lemma AbsorbNext(k: Kernel, secret: Secret, data: seq<byte>, c: nat, e: Event)
    requires (c + 1) * 64 <= |data| && e == Take(StripeAt(data, c), Key(secret, c % Turns(secret)))
    ensures var acc := k.accumulate512(Absorb(k, secret, data, c), e.stripe, e.key);
      Absorb(k, secret, data, c + 1) == if EndsTurn(secret, c) then k.scramble(acc, LastKey(secret)) else acc
  {
    hide StripeAt, Key, LastKey;
  }

  /** evs are the calls for the first c stripes, and leave what absorbing them leaves. */
  ghost predicate Plays(k: Kernel, secret: Secret, data: seq<byte>, c: nat, evs: seq<Event>)
    requires c * 64 <= |data|
  {
    |evs| == Calls(secret, c) && AreCalls(secret, data, evs) && Absorb(k, secret, data, c) == Play(k, evs)
  }

  lemma PlaysNext(k: Kernel, secret: Secret, data: seq<byte>, c: nat, evs: seq<Event>) returns (evs2: seq<Event>)
    requires (c + 1) * 64 <= |data| && Plays(k, secret, data, c, evs)
    ensures Plays(k, secret, data, c + 1, evs2)
  {
    var take := NextTake(secret, data, c);
    AbsorbNext(k, secret, data, c, take);
    hide Play, IsCall, AreCalls, Calls, StripeAt, Key, LastKey, Absorb, Turns, EndsTurn;
    NextMix(secret, data, c);
    OneMore(k, secret, data, evs, take);
    evs2 := evs + [take];
    if EndsTurn(secret, c) {
      OneMore(k, secret, data, evs2, Mix(LastKey(secret)));
      evs2 := evs2 + [Mix(LastKey(secret))];
    }
  }

  /** What is absorbed, call by call. */
  lemma {:induction false} AbsorbPlays(k: Kernel, secret: Secret, data: seq<byte>, c: nat) returns (evs: seq<Event>)
    requires c * 64 <= |data|
    ensures Plays(k, secret, data, c, evs)
  {
    if c == 0 {
      evs := [];
    } else {
      hide Plays;
      evs := AbsorbPlays(k, secret, data, c - 1);
      evs := PlaysNext(k, secret, data, c - 1, evs);
    }
  }

  /** The secret the source hashes long inputs with, in each mode. */
  predicate LongWith(k: Kernel, m: Mode, secret: Secret) {
    match m
    case Plain => secret == k.kSecret
    case WithSecret(s) => secret == s
    case WithSeed(seed) => secret == (if seed == 0 then k.kSecret else k.initCustomSecret(seed))
  }

  /**
   The digest of a long input: from the initial accumulators every stripe that leaves a byte is taken in its
   place, with the secret from 8 bytes further on each time and scrambled with the end of the secret when it is
   used up; then the last 64 bytes, with the secret that ends 7 bytes before its end; and the result is merged
   with the secret from byte 11 on and the length.
   */
  lemma LongCalls(k: Kernel, m: Mode, data: seq<byte>, secret: Secret) returns (evs: seq<Event>)
    requires |data| > 240 && LongWith(k, m, secret)
    ensures |evs| == Calls(secret, (|data| - 1) / 64) + 1 && AreCalls(secret, data, evs[..|evs| - 1])
    ensures evs[|evs| - 1] == Take(data[|data| - 64..], secret[|secret| - 71..|secret| - 7])
    ensures Hash(k, m, data) == k.merge(Play(k, evs), secret[11..], |data|)
  {
    hide Absorb, AreCalls, Calls;
    var first := AbsorbPlays(k, secret, data, (|data| - 1) / 64);
    var last := Take(data[|data| - 64..], secret[|secret| - 71..|secret| - 7]);
    evs := first + [last];
    assert evs[..|evs| - 1] == first;
    assert Play(k, evs) == k.accumulate512(Play(k, first), last.stripe, last.key);
    hide Play;
  }

  /** The digest of a short input: the default secret unless one was given, and seed 0 unless one was given. */
  lemma ShortCall(k: Kernel, m: Mode, data: seq<byte>)
    requires |data| <= 240
    ensures m.Plain? ==> Hash(k, m, data) == k.short(data, k.kSecret, 0)
    ensures m.WithSecret? ==> Hash(k, m, data) == k.short(data, m.secret, 0)
    ensures m.WithSeed? ==> Hash(k, m, data) == k.short(data, k.kSecret, m.seed)
  {
  }

  // ---------- kernels that watch

  /** With a merge that answers with anything of the secret and length it is told, a long input hashes to that. */
  lemma MergeSees(k: Kernel, m: Mode, data: seq<byte>, secret: Secret, f: (seq<byte>, nat) -> u64)
    requires |data| > 240 && LongWith(k, m, secret)
    ensures Hash(k.(merge := (a: Acc, s: seq<byte>, n: nat) => f(s, n)), m, data) == f(secret[11..], |data|)
  {
    var k2 := k.(merge := (a: Acc, s: seq<byte>, n: nat) => f(s, n));
    var evs := LongCalls(k2, m, data, secret);
  }

  /** With an accumulate that keeps only what it is told last: the end of the input, and of the secret but 7 bytes. */
  lemma LastTaken(k: Kernel, m: Mode, data: seq<byte>, secret: Secret, f: (seq<byte>, seq<byte>) -> Acc)
    requires |data| > 240 && LongWith(k, m, secret)
    ensures Hash(k.(accumulate512 := (a: Acc, s: seq<byte>, key: seq<byte>) => f(s, key),
                    merge := (a: Acc, s: seq<byte>, n: nat) => a[0]), m, data) ==
              f(data[|data| - 64..], secret[|secret| - 71..|secret| - 7])[0]
  {
    var k2 := k.(accumulate512 := (a: Acc, s: seq<byte>, key: seq<byte>) => f(s, key),
                 merge := (a: Acc, s: seq<byte>, n: nat) => a[0]);
    var evs := LongCalls(k2, m, data, secret);
  }
}

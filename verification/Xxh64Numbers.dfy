/**
 XXH64 as its description gives it, in numbers: sums and products modulo 2^64, rotation by quotient and
 remainder, little-endian words. It is the function that module Xxh64 computes with words.
 */
module Xxh64Numbers {
  import opened Base
  import opened StripeFold
  import opened Numbers64
  import W = Xxh64
  import opened Mixes

  function Prime1(): nat { 0x9E3779B185EBCA87 }
  function Prime2(): nat { 0xC2B2AE3D27D4EB4F }
  function Prime3(): nat { 0x165667B19E3779F9 }
  function Prime4(): nat { 0x85EBCA77C2B2AE63 }
  function Prime5(): nat { 0x27D4EB2F165667C5 }

  function LittleEndian(s: seq<byte>): nat {
    if s == [] then 0 else s[0] as nat + 256 * LittleEndian(s[1..])
  }

  function Round(acc: nat, input: nat): nat {
    Mod(Rotated(Mod(acc + input * Prime2()), 31) * Prime1())
  }

  function MergeRound(acc: nat, val: nat): nat {
    Mod(XorOf(acc, Round(0, val)) * Prime1() + Prime4())
  }

  datatype Lanes = Lanes(v1: nat, v2: nat, v3: nat, v4: nat)

  function Initial(seed: nat): Lanes {
    Lanes(Mod(seed + Prime1() + Prime2()), Mod(seed + Prime2()), seed, Mod(seed - Prime1()))
  }

  function Stripe(v: Lanes, s: seq<byte>): Lanes {
    if |s| != 32 then v
    else Lanes(Round(v.v1, LittleEndian(s[..8])), Round(v.v2, LittleEndian(s[8..16])),
               Round(v.v3, LittleEndian(s[16..24])), Round(v.v4, LittleEndian(s[24..])))
  }

  function Converge(v: Lanes): nat {
    var h := Mod(Rotated(v.v1, 1) + Rotated(v.v2, 7) + Rotated(v.v3, 12) + Rotated(v.v4, 18));
    MergeRound(MergeRound(MergeRound(MergeRound(h, v.v1), v.v2), v.v3), v.v4)
  }

  function Avalanche(h: nat): nat {
    var h1 := Mod(XorOf(h, h / 0x2_0000_0000) * Prime2());
    var h2 := Mod(XorOf(h1, h1 / 0x2000_0000) * Prime3());
    XorOf(h2, h2 / 0x1_0000_0000)
  }

  /** The rest of the input: words of 8 bytes, then at most one of 4, then bytes. */
  function Finished(h: nat, t: seq<byte>): nat
    decreases |t|
  {
    if |t| >= 8 then
      Finished(Mod(Rotated(XorOf(h, Round(0, LittleEndian(t[..8]))), 27) * Prime1() + Prime4()), t[8..])
    else if |t| >= 4 then
      Finished(Mod(Rotated(XorOf(h, Mod(LittleEndian(t[..4]) * Prime1())), 23) * Prime2() + Prime3()), t[4..])
    else if |t| > 0 then
      Finished(Mod(Rotated(XorOf(h, Mod(LittleEndian(t[..1]) * Prime5())), 11) * Prime1()), t[1..])
    else Avalanche(h)
  }

  /** XXH64 */
  function Hash(s: seq<byte>, seed: nat): nat {
    var h := if |s| < 32 then Mod(seed + Prime5()) else Converge(Fold(32, Stripe, Initial(seed), s));
    Finished(Mod(h + |s|), s[|s| / 32 * 32..])
  }

  // ---------- operations of words

  lemma Rotation(x: bv64, r: nat)
    requires r in {1, 7, 11, 12, 18, 23, 27, 31}
    ensures Number(W.Rotl(x, r)) == Rotated(Number(x), r)
  {
    if r == 1 { Turned1(x); }
    else if r == 7 { Turned7(x); }
    else if r == 11 { Turned11(x); }
    else if r == 12 { Turned12(x); }
    else if r == 18 { Turned18(x); }
    else if r == 23 { Turned23(x); }
    else if r == 27 { Turned27(x); }
    else { Turned31(x); }
    NumberTurned(x, r);
  }

  lemma Prime1Is()
    ensures Number(0x9E3779B185EBCA87) == Prime1()
  {
    NumberOfByte(0x9E);
    OneByteMore(0x9E37, 0x9E, 0x37);
    OneByteMore(0x9E3779, 0x9E37, 0x79);
    OneByteMore(0x9E3779B1, 0x9E3779, 0xB1);
    OneByteMore(0x9E3779B185, 0x9E3779B1, 0x85);
    OneByteMore(0x9E3779B185EB, 0x9E3779B185, 0xEB);
    OneByteMore(0x9E3779B185EBCA, 0x9E3779B185EB, 0xCA);
    OneByteMore(0x9E3779B185EBCA87, 0x9E3779B185EBCA, 0x87);
  }

  lemma Prime2Is()
    ensures Number(0xC2B2AE3D27D4EB4F) == Prime2()
  {
    NumberOfByte(0xC2);
    OneByteMore(0xC2B2, 0xC2, 0xB2);
    OneByteMore(0xC2B2AE, 0xC2B2, 0xAE);
    OneByteMore(0xC2B2AE3D, 0xC2B2AE, 0x3D);
    OneByteMore(0xC2B2AE3D27, 0xC2B2AE3D, 0x27);
    OneByteMore(0xC2B2AE3D27D4, 0xC2B2AE3D27, 0xD4);
    OneByteMore(0xC2B2AE3D27D4EB, 0xC2B2AE3D27D4, 0xEB);
    OneByteMore(0xC2B2AE3D27D4EB4F, 0xC2B2AE3D27D4EB, 0x4F);
  }

  lemma Prime3Is()
    ensures Number(0x165667B19E3779F9) == Prime3()
  {
    NumberOfByte(0x16);
    OneByteMore(0x1656, 0x16, 0x56);
    OneByteMore(0x165667, 0x1656, 0x67);
    OneByteMore(0x165667B1, 0x165667, 0xB1);
    OneByteMore(0x165667B19E, 0x165667B1, 0x9E);
    OneByteMore(0x165667B19E37, 0x165667B19E, 0x37);
    OneByteMore(0x165667B19E3779, 0x165667B19E37, 0x79);
    OneByteMore(0x165667B19E3779F9, 0x165667B19E3779, 0xF9);
  }

  lemma Prime4Is()
    ensures Number(0x85EBCA77C2B2AE63) == Prime4()
  {
    NumberOfByte(0x85);
    OneByteMore(0x85EB, 0x85, 0xEB);
    OneByteMore(0x85EBCA, 0x85EB, 0xCA);
    OneByteMore(0x85EBCA77, 0x85EBCA, 0x77);
    OneByteMore(0x85EBCA77C2, 0x85EBCA77, 0xC2);
    OneByteMore(0x85EBCA77C2B2, 0x85EBCA77C2, 0xB2);
    OneByteMore(0x85EBCA77C2B2AE, 0x85EBCA77C2B2, 0xAE);
    OneByteMore(0x85EBCA77C2B2AE63, 0x85EBCA77C2B2AE, 0x63);
  }

  lemma Prime5Is()
    ensures Number(0x27D4EB2F165667C5) == Prime5()
  {
    NumberOfByte(0x27);
    OneByteMore(0x27D4, 0x27, 0xD4);
    OneByteMore(0x27D4EB, 0x27D4, 0xEB);
    OneByteMore(0x27D4EB2F, 0x27D4EB, 0x2F);
    OneByteMore(0x27D4EB2F16, 0x27D4EB2F, 0x16);
    OneByteMore(0x27D4EB2F1656, 0x27D4EB2F16, 0x56);
    OneByteMore(0x27D4EB2F165667, 0x27D4EB2F1656, 0x67);
    OneByteMore(0x27D4EB2F165667C5, 0x27D4EB2F165667, 0xC5);
  }

  // ---------- the functions of XXH64

  lemma ModSum(a: int, b: int)
    ensures Mod(a + Mod(b)) == Mod(a + b) && Mod(Mod(a) + b) == Mod(a + b)
  {
  }

  lemma RoundIs(acc: bv64, input: bv64)
    ensures Number(W.Round(acc, input)) == Round(Number(acc), Number(input))
  {
    hide Number, Plus64, Times64, W.Rotl, Rotated, Mod;
    Prime1Is();
    Prime2Is();
    var product := Times64(input, 0xC2B2AE3D27D4EB4F);
    NumberTimes(input, 0xC2B2AE3D27D4EB4F);
    NumberPlus(acc, product);
    ModSum(Number(acc), Number(input) * Prime2());
    Rotation(Plus64(acc, product), 31);
    NumberTimes(W.Rotl(Plus64(acc, product), 31), 0x9E3779B185EBCA87);
  }

  lemma NumberOfZero()
    ensures Number(0) == 0
  {
  }

  /** A product and then a sum. */
  lemma ProductSum(x: bv64, y: bv64, z: bv64)
    ensures Number(Plus64(Times64(x, y), z)) == Mod(Number(x) * Number(y) + Number(z))
  {
    hide Number, Plus64, Times64, Mod;
    NumberTimes(x, y);
    NumberPlus(Times64(x, y), z);
    ModSum(Number(x) * Number(y), Number(z));
  }

  lemma MergeRoundIs(acc: bv64, val: bv64)
    ensures Number(W.MergeRound(acc, val)) == MergeRound(Number(acc), Number(val))
  {
    NumberOfZero();
    hide Number, Plus64, Times64, Xor64, W.Round, Round, XorOf;
    Prime1Is();
    Prime4Is();
    RoundIs(0, val);
    NumberXor(acc, W.Round(0, val));
    ProductSum(Xor64(acc, W.Round(0, val)), 0x9E3779B185EBCA87, 0x85EBCA77C2B2AE63);
  }

  /** The lanes as numbers. */
  function Numbers(v: W.Lanes): Lanes {
    Lanes(Number(v.v1), Number(v.v2), Number(v.v3), Number(v.v4))
  }

  lemma ConvergeIs(v: W.Lanes)
    ensures Number(W.Converge(v)) == Converge(Numbers(v))
  {
    hide Number, Plus64, W.Rotl, Rotated, W.MergeRound, MergeRound;
    Rotation(v.v1, 1);
    Rotation(v.v2, 7);
    Rotation(v.v3, 12);
    Rotation(v.v4, 18);
    var a, b, c, d := W.Rotl(v.v1, 1), W.Rotl(v.v2, 7), W.Rotl(v.v3, 12), W.Rotl(v.v4, 18);
    FourSum(a, b, c, d);
    var h := Plus64(Plus64(Plus64(a, b), c), d);
    MergeRoundIs(h, v.v1);
    MergeRoundIs(W.MergeRound(h, v.v1), v.v2);
    MergeRoundIs(W.MergeRound(W.MergeRound(h, v.v1), v.v2), v.v3);
    MergeRoundIs(W.MergeRound(W.MergeRound(W.MergeRound(h, v.v1), v.v2), v.v3), v.v4);
  }

  lemma FourSum(a: bv64, b: bv64, c: bv64, d: bv64)
    ensures Number(Plus64(Plus64(Plus64(a, b), c), d)) == Mod(Number(a) + Number(b) + Number(c) + Number(d))
  {
    hide Number, Plus64, Mod;
    NumberPlus(a, b);
    NumberPlus(Plus64(a, b), c);
    NumberPlus(Plus64(Plus64(a, b), c), d);
    ModSum(Number(a) + Number(b), Number(c));
    ModSum(Number(a) + Number(b) + Number(c), Number(d));
  }

  // ---------- reading words

  /** A byte and, before it, a word that leaves room for it. */
  function Before(b: byte, x: bv64): bv64 { (b as bv64) | (x << 8) }

  predicate Room(x: bv64) { x >> 56 == 0 }

  lemma NumberBefore(b: byte, x: bv64)
    requires Room(x)
    ensures Number(Before(b, x)) == b as nat + 256 * Number(x)
  {
    OneByteMore(Before(b, x), x, b);
  }

  function FourOf(b0: byte, b1: byte, b2: byte, b3: byte): bv64 {
    (b0 as bv64) | ((b1 as bv64) << 8) | ((b2 as bv64) << 16) | ((b3 as bv64) << 24)
  }

  function Halves(lo: bv64, hi: bv64): bv64 { lo | (hi << 32) }

  predicate HalfRoom(x: bv64) { x >> 32 == 0 }

  lemma FourBytes(b0: byte, b1: byte, b2: byte, b3: byte)
    ensures var x2 := Before(b2, b3 as bv64); var x1 := Before(b1, x2);
      && Before(b0, x1) == FourOf(b0, b1, b2, b3)
      && Room(b3 as bv64) && Room(x2) && Room(x1) && HalfRoom(Before(b0, x1))
  {
  }

  lemma FourMore(b0: byte, b1: byte, b2: byte, b3: byte, x: bv64)
    requires HalfRoom(x)
    ensures var x3 := Before(b3, x); var x2 := Before(b2, x3); var x1 := Before(b1, x2);
      && Before(b0, x1) == Halves(FourOf(b0, b1, b2, b3), x)
      && Room(x) && Room(x3) && Room(x2) && Room(x1)
  {
  }

  lemma FirstBytes(s: seq<byte>)
    requires |s| >= 4
    ensures LittleEndian(s) ==
      s[0] as nat + 256 * (s[1] as nat + 256 * (s[2] as nat + 256 * (s[3] as nat + 256 * LittleEndian(s[4..]))))
  {
    assert s[1..][1..] == s[2..] && s[2..][1..] == s[3..] && s[3..][1..] == s[4..];
    assert LittleEndian(s[3..]) == s[3] as nat + 256 * LittleEndian(s[4..]);
    assert LittleEndian(s[2..]) == s[2] as nat + 256 * LittleEndian(s[3..]);
    assert LittleEndian(s[1..]) == s[1] as nat + 256 * LittleEndian(s[2..]);
  }

  lemma ReadForms(s: seq<byte>, at: nat)
    requires at + 4 <= |s|
    ensures W.Read32(s, at) == FourOf(s[at], s[at + 1], s[at + 2], s[at + 3])
  {
  }

  lemma ReadHalves(s: seq<byte>, at: nat, lo: bv64, hi: bv64)
    requires at + 8 <= |s| && W.Read32(s, at) == lo && W.Read32(s, at + 4) == hi
    ensures W.Read(s, at) == Halves(lo, hi)
  {
    hide W.Read32;
  }

  lemma FourNumbers(b0: byte, b1: byte, b2: byte, b3: byte)
    ensures Number(FourOf(b0, b1, b2, b3)) == b0 as nat + 256 * (b1 as nat + 256 * (b2 as nat + 256 * (b3 as nat)))
    ensures HalfRoom(FourOf(b0, b1, b2, b3))
  {
    hide Number, Before, Room, FourOf, HalfRoom;
    FourBytes(b0, b1, b2, b3);
    var x2 := Before(b2, b3 as bv64);
    NumberOfByte(b3);
    NumberBefore(b2, b3 as bv64);
    NumberBefore(b1, x2);
    NumberBefore(b0, Before(b1, x2));
  }

  lemma Read32Is(s: seq<byte>, at: nat)
    requires at + 4 <= |s|
    ensures Number(W.Read32(s, at)) == LittleEndian(s[at..at + 4]) && HalfRoom(W.Read32(s, at))
  {
    hide Number, FourOf, HalfRoom, W.Read32;
    ReadForms(s, at);
    FourNumbers(s[at], s[at + 1], s[at + 2], s[at + 3]);
    FirstBytes(s[at..at + 4]);
    assert LittleEndian([]) == 0;
  }

  /** Eight bytes are four in front of a word of four. */
  lemma ReadBytes(s: seq<byte>, at: nat)
    requires at + 8 <= |s|
    ensures var x := W.Read32(s, at + 4); var x3 := Before(s[at + 3], x); var x2 := Before(s[at + 2], x3);
      && W.Read(s, at) == Before(s[at], Before(s[at + 1], x2))
      && Room(x) && Room(x3) && Room(x2) && Room(Before(s[at + 1], x2))
  {
    hide W.Read, W.Read32, Before, Room, FourOf, Halves, HalfRoom;
    ReadHalves(s, at, W.Read32(s, at), W.Read32(s, at + 4));
    ReadForms(s, at);
    Read32Is(s, at + 4);
    FourMore(s[at], s[at + 1], s[at + 2], s[at + 3], W.Read32(s, at + 4));
  }

  lemma ReadIs(s: seq<byte>, at: nat)
    requires at + 8 <= |s|
    ensures Number(W.Read(s, at)) == LittleEndian(s[at..at + 8])
  {
    hide Number, Before, Room, W.Read, W.Read32;
    Read32Is(s, at + 4);
    ReadBytes(s, at);
    var x := W.Read32(s, at + 4);
    var x3 := Before(s[at + 3], x);
    var x2 := Before(s[at + 2], x3);
    NumberBefore(s[at + 3], x);
    NumberBefore(s[at + 2], x3);
    NumberBefore(s[at + 1], x2);
    NumberBefore(s[at], Before(s[at + 1], x2));
    FirstBytes(s[at..at + 8]);
    assert s[at..at + 8][4..] == s[at + 4..at + 8];
  }

  // ---------- stripes and the whole hash

  lemma StripeIs(v: W.Lanes, s: seq<byte>)
    ensures Numbers(W.Stripe(v, s)) == Stripe(Numbers(v), s)
  {
    hide Number, W.Round, Round, W.Read, LittleEndian;
    if |s| == 32 {
      assert s[24..] == s[24..32];
      ReadIs(s, 0);
      ReadIs(s, 8);
      ReadIs(s, 16);
      ReadIs(s, 24);
      RoundIs(v.v1, W.Read(s, 0));
      RoundIs(v.v2, W.Read(s, 8));
      RoundIs(v.v3, W.Read(s, 16));
      RoundIs(v.v4, W.Read(s, 24));
    }
  }

  lemma {:induction false} FoldIs(v: W.Lanes, s: seq<byte>)
    ensures Numbers(Fold(32, W.Stripe, v, s)) == Fold(32, Stripe, Numbers(v), s)
    decreases |s|
  {
    hide W.Stripe, Stripe, Numbers;
    if |s| >= 32 {
      StripeIs(v, s[..32]);
      FoldIs(W.Stripe(v, s[..32]), s[32..]);
    }
  }

  /** A difference of words is the word that makes the sum right again. */
  lemma NumberMinus(x: bv64, y: bv64)
    ensures Number(Minus64(x, y)) == Mod(Number(x) - Number(y))
  {
    MinusBack(x, y);
    NumberFits(Minus64(x, y));
    NumberFits(x);
    NumberFits(y);
    hide Number, Minus64, Plus64;
    NumberPlus(Minus64(x, y), y);
  }

  lemma MinusBack(x: bv64, y: bv64)
    ensures Plus64(Minus64(x, y), y) == x
  {
    calc { Plus64(Minus64(x, y), y); Plus64(x - y, y); (x - y) + y; x; }
  }

  lemma InitialIs(seed: bv64)
    ensures Numbers(W.Initial(seed)) == Initial(Number(seed))
  {
    hide Number, Plus64, Minus64, Mod;
    Prime1Is();
    Prime2Is();
    NumberPlus(seed, 0x9E3779B185EBCA87);
    NumberPlus(Plus64(seed, 0x9E3779B185EBCA87), 0xC2B2AE3D27D4EB4F);
    NumberPlus(seed, 0xC2B2AE3D27D4EB4F);
    NumberMinus(seed, 0x9E3779B185EBCA87);
    ModSum(Prime2(), Number(seed) + Prime1());
  }

  lemma AvalancheIs(h: bv64)
    ensures Number(W.Avalanche(h)) == Avalanche(Number(h))
  {
    hide Number, XorOf, Times64, Shift33, Shift29, Shift32;
    Prime2Is();
    Prime3Is();
    var h1 := Times2(Shift33(h));
    var h2 := Times3(Shift29(h1));
    NumberShifts(h);
    NumberTimes(Shift33(h), 0xC2B2AE3D27D4EB4F);
    NumberShifts(h1);
    NumberTimes(Shift29(h1), 0x165667B19E3779F9);
    NumberShifts(h2);
  }

  lemma Mixed8(h: bv64, w: bv64)
    ensures Number(Plus64(Times64(W.Rotl(Xor64(h, W.Round(0, w)), 27), 0x9E3779B185EBCA87), 0x85EBCA77C2B2AE63)) ==
      Mod(Rotated(XorOf(Number(h), Round(0, Number(w))), 27) * Prime1() + Prime4())
  {
    NumberOfZero();
    hide Number, XorOf, Round, Rotated, Xor64, Times64, Plus64, W.Rotl, W.Round;
    Prime1Is();
    Prime4Is();
    RoundIs(0, w);
    var x := Xor64(h, W.Round(0, w));
    NumberXor(h, W.Round(0, w));
    Rotation(x, 27);
    ProductSum(W.Rotl(x, 27), 0x9E3779B185EBCA87, 0x85EBCA77C2B2AE63);
  }

  lemma Process8Is(h: bv64, t: seq<byte>)
    requires |t| >= 8
    ensures Number(W.Process8(h, t)) ==
      Mod(Rotated(XorOf(Number(h), Round(0, LittleEndian(t[..8]))), 27) * Prime1() + Prime4())
  {
    hide Number, XorOf, Round, Rotated, LittleEndian, Xor64, Times64, Plus64, W.Rotl, W.Round, W.Read, Mod;
    assert t[0..8] == t[..8];
    ReadIs(t, 0);
    Mixed8(h, W.Read(t, 0));
  }

  lemma Mixed4(h: bv64, w: bv64)
    ensures var k := Times64(w, 0x9E3779B185EBCA87);
      Number(Plus64(Times64(W.Rotl(Xor64(h, k), 23), 0xC2B2AE3D27D4EB4F), 0x165667B19E3779F9)) ==
        Mod(Rotated(XorOf(Number(h), Mod(Number(w) * Prime1())), 23) * Prime2() + Prime3())
  {
    hide Number, XorOf, Rotated, Xor64, Times64, Plus64, W.Rotl;
    Prime1Is();
    Prime2Is();
    Prime3Is();
    var k := Times64(w, 0x9E3779B185EBCA87);
    NumberTimes(w, 0x9E3779B185EBCA87);
    NumberXor(h, k);
    Rotation(Xor64(h, k), 23);
    ProductSum(W.Rotl(Xor64(h, k), 23), 0xC2B2AE3D27D4EB4F, 0x165667B19E3779F9);
  }

  lemma Process4Is(h: bv64, t: seq<byte>)
    requires |t| >= 4
    ensures Number(W.Process4(h, t)) ==
      Mod(Rotated(XorOf(Number(h), Mod(LittleEndian(t[..4]) * Prime1())), 23) * Prime2() + Prime3())
  {
    hide Number, XorOf, Rotated, LittleEndian, Xor64, Times64, Plus64, W.Rotl, W.Read32, Mod;
    assert t[0..4] == t[..4];
    Read32Is(t, 0);
    Mixed4(h, W.Read32(t, 0));
  }

  lemma Process1Is(h: bv64, b: byte)
    ensures Number(W.Process1(h, b)) == Mod(Rotated(XorOf(Number(h), Mod(b as nat * Prime5())), 11) * Prime1())
  {
    hide Number, XorOf, Rotated, Xor64, Times64, W.Rotl;
    Prime1Is();
    Prime5Is();
    NumberOfByte(b);
    var k := Times64(b as bv64, 0x27D4EB2F165667C5);
    NumberTimes(b as bv64, 0x27D4EB2F165667C5);
    NumberXor(h, k);
    Rotation(Xor64(h, k), 11);
    NumberTimes(W.Rotl(Xor64(h, k), 11), 0x9E3779B185EBCA87);
  }

  lemma OneByte(t: seq<byte>)
    requires |t| > 0
    ensures LittleEndian(t[..1]) == t[0] as nat
  {
    assert t[..1][1..] == [];
  }

  lemma {:induction false} BytesIs(h: bv64, t: seq<byte>)
    requires |t| < 4
    ensures Number(W.Bytes(h, t)) == Finished(Number(h), t)
    decreases |t|
  {
    hide Number, XorOf, Rotated, LittleEndian, W.Avalanche, Avalanche, W.Process1;
    if t == [] {
      AvalancheIs(h);
    } else {
      Process1Is(h, t[0]);
      OneByte(t);
      BytesIs(W.Process1(h, t[0]), t[1..]);
    }
  }

  lemma {:induction false} FinishedIs(h: bv64, t: seq<byte>)
    ensures Number(W.Finished(h, t)) == Finished(Number(h), t)
    decreases |t|
  {
    hide Number, XorOf, Rotated, Round, LittleEndian, W.Process8, W.Process4, W.Bytes;
    if |t| >= 8 {
      Process8Is(h, t);
      FinishedIs(W.Process8(h, t), t[8..]);
    } else if |t| >= 4 {
      Process4Is(h, t);
      BytesIs(W.Process4(h, t), t[4..]);
    } else {
      BytesIs(h, t);
    }
  }

  lemma LowIs(n: nat)
    ensures Number(W.Low(n)) == Mod(n)
  {
    hide Number, Word;
    NumberWord(W.Wrap(n));
  }

  /** Where the rest of the input starts from, before the length is added. */
  lemma StartIs(s: seq<byte>, seed: bv64)
    ensures |s| < 32 ==> Number(W.Short(seed)) == Mod(Number(seed) + Prime5())
    ensures Number(W.Converge(Fold(32, W.Stripe, W.Initial(seed), s))) ==
      Converge(Fold(32, Stripe, Initial(Number(seed)), s))
  {
    hide Number, W.Stripe, Stripe, W.Initial, Initial, W.Converge, Converge, Plus64, Numbers, Mod, Fold;
    Prime5Is();
    NumberPlus(seed, 0x27D4EB2F165667C5);
    InitialIs(seed);
    FoldIs(W.Initial(seed), s);
    ConvergeIs(Fold(32, W.Stripe, W.Initial(seed), s));
  }

  /** What module Xxh64 computes with words is XXH64 of the same bytes and seed, as a number. */
  lemma HashIs(s: seq<byte>, seed: bv64)
    ensures Number(W.Hash(s, seed)) == Hash(s, Number(seed))
  {
    hide Number, W.Stripe, Stripe, W.Initial, Initial, W.Converge, Converge, W.Finished, Finished, Plus64, W.Short,
         W.Low, Mod, Fold;
    StartIs(s, seed);
    var h := if |s| < 32 then W.Short(seed) else W.Converge(Fold(32, W.Stripe, W.Initial(seed), s));
    LowIs(|s|);
    NumberPlus(h, W.Low(|s|));
    ModSum(Number(h), |s|);
    FinishedIs(W.AddLength(h, W.Low(|s|)), s[W.Whole(|s|)..]);
  }
}

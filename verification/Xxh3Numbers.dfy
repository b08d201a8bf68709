/**
 Pieces of XXH3 in numbers, as modules Xxh64Numbers and Numbers64 do it for XXH64: a lane of accumulate and of
 scramble, and the hash of one to three bytes.
 */
module Xxh3Numbers {
  import opened Mixes
  import opened Numbers64
  import opened StripeFold
  import A = Avalanche
  import N = Xxh64Numbers
  import V = Vector
  import W = Xxh64

  // ---------- lanes

  /** A lane after accumulate: its neighbour's data and the product of the halves of its own key are added. */
  function Accumulated(acc: nat, own: nat, other: nat, secret: nat): nat {
    var key := XorOf(own, secret);
    Mod(acc + other + key % 0x1_0000_0000 * (key / 0x1_0000_0000))
  }

  /** A lane after scramble. */
  function Scrambled(x: nat, secret: nat): nat {
    Mod(XorOf(XorOf(x, x / 0x8000_0000_0000), secret) * 0x9E3779B1)
  }

  lemma ProductIs(own: bv64, secret: bv64)
    ensures var key := XorOf(Number(own), Number(secret));
      Number(V.Product(own, secret)) == Mod(key % 0x1_0000_0000 * (key / 0x1_0000_0000))
  {
    var key := Xor64(own, secret);
    var lo, hi := V.Low(key), V.High(key);
    NumberHalves(key);
    NumberHalves(hi);
    NumberFits(key);
    hide Number, XorOf, Xor64, Times64, V.Low, V.High;
    NumberXor(own, secret);
    LowOfHigh(key);
    NumberTimes(lo, hi);
  }

  lemma LowOfHigh(x: bv64)
    ensures V.Low(V.High(x)) == V.High(x) && V.Low(x) == x & 0xffff_ffff && V.High(x) == x >> 32
  {
  }

  lemma AccumulateIs(acc: bv64, own: bv64, other: bv64, secret: bv64)
    ensures Number(V.Accumulate(acc, own, other, secret)) ==
      Accumulated(Number(acc), Number(own), Number(other), Number(secret))
  {
    hide Number, XorOf, Plus64, V.Product, Mod;
    ProductIs(own, secret);
    NumberPlus(other, V.Product(own, secret));
    NumberPlus(acc, Plus64(other, V.Product(own, secret)));
    var key := XorOf(Number(own), Number(secret));
    var product := key % 0x1_0000_0000 * (key / 0x1_0000_0000);
    N.ModSum(Number(other), product);
    N.ModSum(Number(acc), Number(other) + product);
  }

  lemma ShiftIs(x: bv64)
    ensures Number(V.Shr47(x)) == Number(x) / 0x8000_0000_0000
  {
    Down47(x);
    NumberShifted(x, 47);
    Power47();
    hide Number, Shifted, Pow2;
  }

  lemma Power47()
    ensures Pow2(47) == 0x8000_0000_0000
  {
    ShiftPowers();
    assert Pow2(7) == 128 && Pow2(8) == 256;
    hide Pow2;
    PowSum(7, 8);
    PowSum(15, 32);
  }

  lemma PrimeIs()
    ensures Number(0x9E3779B1) == 0x9E3779B1
  {
    NumberOfByte(0x9E);
    OneByteMore(0x9E37, 0x9E, 0x37);
    OneByteMore(0x9E3779, 0x9E37, 0x79);
    OneByteMore(0x9E3779B1, 0x9E3779, 0xB1);
  }

  lemma ScrambleIs(x: bv64, secret: bv64)
    ensures Number(V.Scramble(x, secret)) == Scrambled(Number(x), Number(secret))
  {
    hide Number, XorOf, Xor64, Times64, V.Shr47;
    PrimeIs();
    ShiftIs(x);
    NumberXor(x, V.Shr47(x));
    var y := Xor64(x, V.Shr47(x));
    NumberXor(y, secret);
    NumberTimes(Xor64(y, secret), 0x9E3779B1);
  }

  // ---------- one to three bytes

  /** The word an input of one to three bytes is packed into. */
  function Packed(s: seq<byte>): nat
    requires 1 <= |s| <= 3
  {
    s[|s| - 1] as nat + 0x100 * |s| + 0x1_0000 * (s[0] as nat) + 0x100_0000 * (s[|s| / 2] as nat)
  }

  /** The XXH3 hash of one to three bytes. */
  function Short(s: seq<byte>, secret: seq<byte>, seed: nat): nat
    requires 1 <= |s| <= 3 && |secret| >= 8
  {
    var flip := Mod(XorOf(N.LittleEndian(secret[0..4]), N.LittleEndian(secret[4..8])) + seed);
    N.Avalanche(XorOf(Packed(s), flip))
  }

  lemma PackedIs(s: seq<byte>)
    requires 1 <= |s| <= 3
    ensures Number(A.Packed(s) as bv64) == Packed(s)
  {
    var len: byte := if |s| == 1 then 1 else if |s| == 2 then 2 else 3;
    N.FourNumbers(s[|s| - 1], len, s[0], s[|s| / 2]);
    PackedBytes(s, len);
    hide A.Packed, N.FourOf, Number;
  }

  lemma PackedBytes(s: seq<byte>, len: byte)
    requires 1 <= |s| <= 3 && len == (if |s| == 1 then 1 else if |s| == 2 then 2 else 3)
    ensures A.Packed(s) as bv64 == N.FourOf(s[|s| - 1], len, s[0], s[|s| / 2])
  {
  }

  lemma BitflipIs(secret: seq<byte>, seed: bv64)
    requires |secret| >= 8
    ensures Number(A.Bitflip(secret, seed)) ==
      Mod(XorOf(N.LittleEndian(secret[0..4]), N.LittleEndian(secret[4..8])) + Number(seed))
  {
    hide Number, XorOf, Xor64, Plus64, W.Read32;
    N.Read32Is(secret, 0);
    N.Read32Is(secret, 4);
    NumberXor(W.Read32(secret, 0), W.Read32(secret, 4));
    NumberPlus(Xor64(W.Read32(secret, 0), W.Read32(secret, 4)), seed);
  }

  lemma ShortIs(s: seq<byte>, secret: seq<byte>, seed: bv64)
    requires 1 <= |s| <= 3 && |secret| >= 8
    ensures Number(A.Len1To3(s, secret, seed)) == Short(s, secret, Number(seed))
  {
    hide Number, XorOf, Xor64, A.Packed, A.Bitflip, W.Avalanche, N.Avalanche, N.LittleEndian;
    PackedIs(s);
    BitflipIs(secret, seed);
    NumberXor(A.Packed(s) as bv64, A.Bitflip(secret, seed));
    N.AvalancheIs(Xor64(A.Packed(s) as bv64, A.Bitflip(secret, seed)));
  }
}

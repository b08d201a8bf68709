/**
 The inner loops of XXH3 (src/xxhash/xxhash.h): the SSE2 and AVX2 forms of accumulate and scramble
 leave in the accumulators what the scalar loops leave there. A stripe and its part of the secret are
 given as their eight 64-bit lanes.
 */
module Vector {
  import opened Mixes

  type u64 = bv64
  type Lanes8 = s: seq<u64> | |s| == 8 witness [0, 0, 0, 0, 0, 0, 0, 0]

  // ---------- operations on 64-bit words

  function Low(x: u64): u64 { x & 0xffff_ffff }
  function High(x: u64): u64 { x >> 32 }
  function Shr47(x: u64): u64 { x >> 47 }
  function Shl32(x: u64): u64 { x << 32 }
  function Pack(lo: u64, hi: u64): u64 { lo | (hi << 32) }

  /** XXH_mult32to64 */
  function Mult32(x: u64, y: u64): u64 { Times64(Low(x), Low(y)) }

  /** Multiplication by XXH_PRIME32_1. */
  function TimesPrime(x: u64): u64 { Times64(x, 0x9E3779B1) }

  lemma SumCommutes(x: u64, y: u64)
    ensures Plus64(x, y) == Plus64(y, x)
  {
    calc { Plus64(x, y); x + y; y + x; Plus64(y, x); }
  }

  lemma SumOrder(a: u64, d: u64, p: u64)
    ensures Plus64(Plus64(a, d), p) == Plus64(a, Plus64(d, p)) && Plus64(Plus64(a, p), d) == Plus64(a, Plus64(d, p))
    ensures Plus64(p, Plus64(a, d)) == Plus64(a, Plus64(d, p))
  {
    hide Plus64;
    SumAssociates(a, d, p);
    SumAssociates(a, p, d);
    SumCommutes(p, d);
    SumCommutes(p, Plus64(a, d));
  }

  lemma Repack(x: u64)
    ensures Pack(Low(x), High(x)) == x
  {
    calc { Pack(Low(x), High(x)); (x & 0xffff_ffff) | ((x >> 32) << 32); x; }
  }

  lemma HalvesOfPack(x: u64, hi: u64)
    ensures Low(Pack(High(x), hi)) == High(x) && Low(High(x)) == High(x) && Low(Low(x)) == Low(x)
  {
    calc { Low(Pack(High(x), hi)); ((x >> 32) | (hi << 32)) & 0xffff_ffff; x >> 32; High(x); }
    calc { Low(High(x)); (x >> 32) & 0xffff_ffff; x >> 32; High(x); }
    calc { Low(Low(x)); (x & 0xffff_ffff) & 0xffff_ffff; x & 0xffff_ffff; Low(x); }
  }

  function By32Bits(x: u64): u64 { Times64(x, 0x1_0000_0000) }

  lemma ShiftIsProduct(x: u64)
    ensures Shl32(x) == By32Bits(x)
  {
    calc { Shl32(x); x << 32; x * 0x1_0000_0000; By32Bits(x); }
  }

  lemma PrimeAndShift(x: u64)
    ensures TimesPrime(By32Bits(x)) == By32Bits(TimesPrime(x))
  {
    assert Times64(0x1_0000_0000, 0x9E3779B1) == Times64(0x9E3779B1, 0x1_0000_0000);
    hide Times64;
    TimesAssociates(x, 0x1_0000_0000, 0x9E3779B1);
    TimesAssociates(x, 0x9E3779B1, 0x1_0000_0000);
  }

  lemma PrimeOfSum(x: u64, y: u64)
    ensures TimesPrime(Plus64(x, y)) == Plus64(TimesPrime(x), TimesPrime(y))
  {
    hide Times64, Plus64;
    TimesDistributes(x, y, 0x9E3779B1);
  }

  lemma SumOfHalves(x: u64)
    ensures Plus64(Low(x), Shl32(High(x))) == x
  {
    calc {
      Plus64(Low(x), Shl32(High(x)));
      Plus64(x & 0xffff_ffff, Shl32(x >> 32));
      Plus64(x & 0xffff_ffff, (x >> 32) << 32);
      (x & 0xffff_ffff) + ((x >> 32) << 32);
      x;
    }
  }

  /** A 64-bit product by the prime from the products of the two halves. */
  lemma ProductByParts(x: u64)
    ensures Plus64(TimesPrime(Low(x)), Shl32(TimesPrime(High(x)))) == TimesPrime(x)
  {
    hide Plus64, Low, High, Shl32, TimesPrime, By32Bits;
    SumOfHalves(x);
    PrimeOfSum(Low(x), Shl32(High(x)));
    ShiftIsProduct(High(x));
    PrimeAndShift(High(x));
    ShiftIsProduct(TimesPrime(High(x)));
  }

  // ---------- what a stripe and a scramble do to the accumulators

  /** i ^ 1 */
  function Neighbour(i: nat): nat { if i % 2 == 0 then i + 1 else i - 1 }

  function Product(own: u64, secret: u64): u64 {
    var dataKey := Xor64(own, secret);
    Mult32(dataKey, High(dataKey))
  }

  /** Lane i gains its neighbour's data and the product of the halves of its own key. */
  function Accumulate(acc: u64, own: u64, other: u64, secret: u64): u64 {
    Plus64(acc, Plus64(other, Product(own, secret)))
  }

  function Accumulated(acc: Lanes8, data: Lanes8, secret: Lanes8): Lanes8 {
    seq(8, i requires 0 <= i < 8 => Accumulate(acc[i], data[i], data[Neighbour(i)], secret[i]))
  }

  function Scramble(x: u64, secret: u64): u64 {
    TimesPrime(Xor64(Xor64(x, Shr47(x)), secret))
  }

  function Scrambled(acc: Lanes8, secret: Lanes8): Lanes8 {
    seq(8, i requires 0 <= i < 8 => Scramble(acc[i], secret[i]))
  }

  /** The first n lanes have their final value, the others still their first. */
  predicate Done(cur: Lanes8, first: Lanes8, final: Lanes8, n: nat) {
    forall k :: 0 <= k < 8 ==> cur[k] == if k < n then final[k] else first[k]
  }

  lemma DoneTwo(cur: Lanes8, first: Lanes8, final: Lanes8, n: nat, x: u64, y: u64)
    requires n + 2 <= 8 && Done(cur, first, final, n) && x == final[n] && y == final[n + 1]
    ensures Done(cur[n := x][n + 1 := y], first, final, n + 2)
  {
  }

  // ---------- scalar

  /** One turn of the scalar accumulate loop: the product goes to lane i, the data to its neighbour. */
  function ScalarTurn(acc: Lanes8, data: Lanes8, secret: Lanes8, i: nat): Lanes8
    requires i < 8
  {
    var acc := acc[Neighbour(i) := Plus64(acc[Neighbour(i)], data[i])];
    acc[i := Plus64(acc[i], Product(data[i], secret[i]))]
  }

  /** Two turns do one pair of lanes. */
  lemma ScalarPair(acc: Lanes8, data: Lanes8, secret: Lanes8, i: nat)
    requires i % 2 == 0 && i < 8
    ensures ScalarTurn(ScalarTurn(acc, data, secret, i), data, secret, i + 1)
         == acc[i := Accumulate(acc[i], data[i], data[i + 1], secret[i])]
               [i + 1 := Accumulate(acc[i + 1], data[i + 1], data[i], secret[i + 1])]
  {
    hide Plus64, Product;
    SumOrder(acc[i], data[i + 1], Product(data[i], secret[i]));
    SumOrder(acc[i + 1], data[i], Product(data[i + 1], secret[i + 1]));
  }

  function ScalarTurns(acc: Lanes8, data: Lanes8, secret: Lanes8, n: nat): Lanes8
    requires n <= 8
  {
    if n == 0 then acc else ScalarTurn(ScalarTurns(acc, data, secret, n - 1), data, secret, n - 1)
  }

  /** After an even number of turns the lanes before n are done and the others untouched. */
  lemma {:induction false} ScalarPairs(acc: Lanes8, data: Lanes8, secret: Lanes8, n: nat)
    requires n <= 4
    ensures Done(ScalarTurns(acc, data, secret, 2 * n), acc, Accumulated(acc, data, secret), 2 * n)
  {
    hide Accumulated, ScalarTurn;
    if n > 0 {
      ScalarPairs(acc, data, secret, n - 1);
      NextPair(ScalarTurns(acc, data, secret, 2 * n - 2), acc, data, secret, 2 * n - 2);
      assert ScalarTurns(acc, data, secret, 2 * n)
          == ScalarTurn(ScalarTurn(ScalarTurns(acc, data, secret, 2 * n - 2), data, secret, 2 * n - 2),
                        data, secret, 2 * n - 1);
    }
  }

  lemma NextPair(r: Lanes8, acc: Lanes8, data: Lanes8, secret: Lanes8, i: nat)
    requires i % 2 == 0 && i < 8 && Done(r, acc, Accumulated(acc, data, secret), i)
    ensures Done(ScalarTurn(ScalarTurn(r, data, secret, i), data, secret, i + 1), acc,
                 Accumulated(acc, data, secret), i + 2)
  {
    hide Accumulate, ScalarTurn;
    ScalarPair(r, data, secret, i);
    var final := Accumulated(acc, data, secret);
    assert final[i] == Accumulate(acc[i], data[i], data[i + 1], secret[i]);
    assert final[i + 1] == Accumulate(acc[i + 1], data[i + 1], data[i], secret[i + 1]);
    hide Accumulated;
    DoneTwo(r, acc, final, i, final[i], final[i + 1]);
  }

  /** XXH3_accumulate_512_scalar */
  method AccumulateScalar(acc: array<u64>, data: Lanes8, secret: Lanes8)
    requires acc.Length == 8
    modifies acc
    ensures acc[..] == Accumulated(old(acc[..]), data, secret)
  {
    hide Plus64, Product, Accumulate;
    ghost var a := acc[..];
    var i := 0;
    while i < 8
      invariant 0 <= i <= 8 && acc[..] == ScalarTurns(a, data, secret, i)
    {
      ghost var before := acc[..];
      acc[Neighbour(i)] := Plus64(acc[Neighbour(i)], data[i]);
      acc[i] := Plus64(acc[i], Product(data[i], secret[i]));
      assert acc[..] == ScalarTurn(before, data, secret, i);
      i := i + 1;
    }
    ScalarPairs(a, data, secret, 4);
  }

  /** XXH3_scrambleAcc_scalar */
  method ScrambleScalar(acc: array<u64>, secret: Lanes8)
    requires acc.Length == 8
    modifies acc
    ensures acc[..] == Scrambled(old(acc[..]), secret)
  {
    hide TimesPrime, Xor64, Shr47;
    var i := 0;
    while i < 8
      invariant 0 <= i <= 8
      invariant forall k :: 0 <= k < i ==> acc[k] == Scramble(old(acc[k]), secret[k])
      invariant forall k :: i <= k < 8 ==> acc[k] == old(acc[k])
    {
      var x := acc[i];
      x := Xor64(x, Shr47(x));
      x := Xor64(x, secret[i]);
      acc[i] := TimesPrime(x);
      i := i + 1;
    }
  }

  // ---------- 128-bit vectors

  /** An __m128i as two 64-bit elements, the low one first. */
  datatype V128 = V128(e0: u64, e1: u64)

  /** Element i of a vector seen as four 32-bit elements. */
  function Elem32(v: V128, i: nat): u64 {
    if i == 0 then Low(v.e0) else if i == 1 then High(v.e0) else if i == 2 then Low(v.e1) else High(v.e1)
  }

  /** _mm_shuffle_epi32 by _MM_SHUFFLE(z, y, x, w): w selects the lowest element. */
  function Shuffle(v: V128, z: nat, y: nat, x: nat, w: nat): V128 {
    V128(Pack(Elem32(v, w), Elem32(v, x)), Pack(Elem32(v, y), Elem32(v, z)))
  }

  /** _mm_mul_epu32 */
  function MulEpu32(u: V128, v: V128): V128 { V128(Mult32(u.e0, v.e0), Mult32(u.e1, v.e1)) }

  /** _mm_add_epi64, _mm_xor_si128, _mm_srli_epi64 by 47, _mm_slli_epi64 by 32, _mm_set1_epi32 */
  function AddEpi64(u: V128, v: V128): V128 { V128(Plus64(u.e0, v.e0), Plus64(u.e1, v.e1)) }
  function XorSi128(u: V128, v: V128): V128 { V128(Xor64(u.e0, v.e0), Xor64(u.e1, v.e1)) }
  function SrliEpi64By47(v: V128): V128 { V128(Shr47(v.e0), Shr47(v.e1)) }
  function SlliEpi64By32(v: V128): V128 { V128(Shl32(v.e0), Shl32(v.e1)) }
  function Set1Epi32(x: u64): V128 { V128(Pack(Low(x), Low(x)), Pack(Low(x), Low(x))) }

  /** The body of the SSE2 accumulate loop, which AVX2 runs on both halves of its vectors. */
  function AccumulateVec(acc: V128, data: V128, secret: V128): V128 {
    var dataKey := XorSi128(data, secret);
    var dataKeyLo := Shuffle(dataKey, 0, 3, 0, 1);
    var product := MulEpu32(dataKey, dataKeyLo);
    var dataSwap := Shuffle(data, 1, 0, 3, 2);
    AddEpi64(product, AddEpi64(acc, dataSwap))
  }

  /** The body of the SSE2 scramble loop. */
  function ScrambleVec(acc: V128, secret: V128): V128 {
    var dataKey := XorSi128(XorSi128(acc, SrliEpi64By47(acc)), secret);
    var dataKeyHi := Shuffle(dataKey, 0, 3, 0, 1);
    var prime32 := Set1Epi32(0x9E3779B1);
    var prodLo := MulEpu32(dataKey, prime32);
    var prodHi := MulEpu32(dataKeyHi, prime32);
    AddEpi64(prodLo, SlliEpi64By32(prodHi))
  }

  /** The vector swap and product are those of the scalar loop, lane by lane. */
  lemma AccumulateLanes(acc: V128, data: V128, secret: V128)
    ensures AccumulateVec(acc, data, secret)
         == V128(Accumulate(acc.e0, data.e0, data.e1, secret.e0), Accumulate(acc.e1, data.e1, data.e0, secret.e1))
  {
    var k := XorSi128(data, secret);
    hide Plus64, Pack, Low, High, Xor64, Mult32;
    Repack(data.e0);
    Repack(data.e1);
    KeyProduct(k.e0, Low(k.e0));
    KeyProduct(k.e1, Low(k.e0));
    SumOrder(acc.e0, data.e1, Product(data.e0, secret.e0));
    SumOrder(acc.e1, data.e0, Product(data.e1, secret.e1));
  }

  lemma KeyProduct(k: u64, z: u64)
    ensures Mult32(k, Pack(High(k), z)) == Mult32(k, High(k))
  {
    hide Low, High, Pack, Times64;
    HalvesOfPack(k, z);
  }

  lemma PrimeLow()
    ensures Low(Pack(Low(0x9E3779B1), Low(0x9E3779B1))) == 0x9E3779B1
  {
    calc { Low(0x9E3779B1); 0x9E3779B1 & 0xffff_ffff; 0x9E3779B1; }
    calc { Pack(0x9E3779B1, 0x9E3779B1); 0x9E3779B1 | (0x9E3779B1 << 32); 0x9E3779B1_9E3779B1; }
    calc { Low(0x9E3779B1_9E3779B1); 0x9E3779B1_9E3779B1 & 0xffff_ffff; 0x9E3779B1; }
  }

  lemma PrimePacked(x: u64)
    ensures Mult32(x, Pack(Low(0x9E3779B1), Low(0x9E3779B1))) == TimesPrime(Low(x))
  {
    hide Low, Pack, Times64;
    PrimeLow();
  }

  /** Two 32-bit products and a shift make the 64-bit product of the scalar loop. */
  lemma ScrambleLanes(acc: V128, secret: V128)
    ensures ScrambleVec(acc, secret) == V128(Scramble(acc.e0, secret.e0), Scramble(acc.e1, secret.e1))
  {
    hide Plus64, Pack, Low, High, Xor64, Shl32, Shr47, TimesPrime, Mult32;
    var k := XorSi128(XorSi128(acc, SrliEpi64By47(acc)), secret);
    var hi := Shuffle(k, 0, 3, 0, 1);
    PrimePacked(k.e0);
    PrimePacked(k.e1);
    PrimePacked(hi.e0);
    PrimePacked(hi.e1);
    HalvesOfPack(k.e0, Low(k.e0));
    HalvesOfPack(k.e1, Low(k.e0));
    ProductByParts(k.e0);
    ProductByParts(k.e1);
  }

  function Load(s: Lanes8, n: nat): V128
    requires n + 2 <= 8
  {
    V128(s[n], s[n + 1])
  }

  /** The lanes of one accumulate step are those of the specification. */
  lemma AccumulateTwo(cur: Lanes8, first: Lanes8, data: Lanes8, secret: Lanes8, n: nat, m: nat)
    requires n % 2 == 0 && m <= n && n + 2 <= 8 && Done(cur, first, Accumulated(first, data, secret), m)
    ensures AccumulateVec(Load(cur, n), Load(data, n), Load(secret, n)) == Load(Accumulated(first, data, secret), n)
  {
    hide AccumulateVec, Accumulate;
    AccumulateLanes(Load(cur, n), Load(data, n), Load(secret, n));
  }

  lemma ScrambleTwo(cur: Lanes8, first: Lanes8, secret: Lanes8, n: nat, m: nat)
    requires m <= n && n + 2 <= 8 && Done(cur, first, Scrambled(first, secret), m)
    ensures ScrambleVec(Load(cur, n), Load(secret, n)) == Load(Scrambled(first, secret), n)
  {
    hide ScrambleVec, Scramble;
    ScrambleLanes(Load(cur, n), Load(secret, n));
  }

  /** XXH3_accumulate_512_sse2 */
  method AccumulateSse2(acc: array<u64>, data: Lanes8, secret: Lanes8)
    requires acc.Length == 8
    modifies acc
    ensures acc[..] == Accumulated(old(acc[..]), data, secret)
  {
    hide AccumulateVec, Accumulated;
    ghost var first := acc[..];
    var i := 0;
    while i < 4
      invariant 0 <= i <= 4 && Done(acc[..], first, Accumulated(first, data, secret), 2 * i)
    {
      ghost var cur := acc[..];
      AccumulateTwo(cur, first, data, secret, 2 * i, 2 * i);
      var r := AccumulateVec(Load(acc[..], 2 * i), Load(data, 2 * i), Load(secret, 2 * i));
      DoneTwo(cur, first, Accumulated(first, data, secret), 2 * i, r.e0, r.e1);
      acc[2 * i], acc[2 * i + 1] := r.e0, r.e1;
      assert acc[..] == cur[2 * i := r.e0][2 * i + 1 := r.e1];
      i := i + 1;
    }
  }

  /** XXH3_scrambleAcc_sse2 */
  method ScrambleSse2(acc: array<u64>, secret: Lanes8)
    requires acc.Length == 8
    modifies acc
    ensures acc[..] == Scrambled(old(acc[..]), secret)
  {
    hide ScrambleVec, Scrambled;
    ghost var first := acc[..];
    var i := 0;
    while i < 4
      invariant 0 <= i <= 4 && Done(acc[..], first, Scrambled(first, secret), 2 * i)
    {
      ghost var cur := acc[..];
      ScrambleTwo(cur, first, secret, 2 * i, 2 * i);
      var r := ScrambleVec(Load(acc[..], 2 * i), Load(secret, 2 * i));
      DoneTwo(cur, first, Scrambled(first, secret), 2 * i, r.e0, r.e1);
      acc[2 * i], acc[2 * i + 1] := r.e0, r.e1;
      assert acc[..] == cur[2 * i := r.e0][2 * i + 1 := r.e1];
      i := i + 1;
    }
  }

  // ---------- 256-bit vectors: every instruction used works on the two 128-bit halves separately

  /** XXH3_accumulate_512_avx2 */
  method AccumulateAvx2(acc: array<u64>, data: Lanes8, secret: Lanes8)
    requires acc.Length == 8
    modifies acc
    ensures acc[..] == Accumulated(old(acc[..]), data, secret)
  {
    hide AccumulateVec, Accumulated;
    ghost var first := acc[..];
    var i := 0;
    while i < 2
      invariant 0 <= i <= 2 && Done(acc[..], first, Accumulated(first, data, secret), 4 * i)
    {
      ghost var cur := acc[..];
      ghost var final := Accumulated(first, data, secret);
      AccumulateTwo(cur, first, data, secret, 4 * i, 4 * i);
      AccumulateTwo(cur, first, data, secret, 4 * i + 2, 4 * i);
      var lo := AccumulateVec(Load(acc[..], 4 * i), Load(data, 4 * i), Load(secret, 4 * i));
      var hi := AccumulateVec(Load(acc[..], 4 * i + 2), Load(data, 4 * i + 2), Load(secret, 4 * i + 2));
      DoneTwo(cur, first, final, 4 * i, lo.e0, lo.e1);
      DoneTwo(cur[4 * i := lo.e0][4 * i + 1 := lo.e1], first, final, 4 * i + 2, hi.e0, hi.e1);
      Store(acc, 4 * i, lo, hi);
      i := i + 1;
    }
  }

  /** _mm256_store_si256 */
  method Store(acc: array<u64>, n: nat, lo: V128, hi: V128)
    requires acc.Length == 8 && n + 4 <= 8
    modifies acc
    ensures acc[..] == old(acc[..])[n := lo.e0][n + 1 := lo.e1][n + 2 := hi.e0][n + 3 := hi.e1]
  {
    acc[n], acc[n + 1], acc[n + 2], acc[n + 3] := lo.e0, lo.e1, hi.e0, hi.e1;
  }

  /** XXH3_scrambleAcc_avx2 */
  method ScrambleAvx2(acc: array<u64>, secret: Lanes8)
    requires acc.Length == 8
    modifies acc
    ensures acc[..] == Scrambled(old(acc[..]), secret)
  {
    hide ScrambleVec, Scrambled;
    ghost var first := acc[..];
    var i := 0;
    while i < 2
      invariant 0 <= i <= 2 && Done(acc[..], first, Scrambled(first, secret), 4 * i)
    {
      ghost var cur := acc[..];
      ghost var final := Scrambled(first, secret);
      ScrambleTwo(cur, first, secret, 4 * i, 4 * i);
      ScrambleTwo(cur, first, secret, 4 * i + 2, 4 * i);
      var lo := ScrambleVec(Load(acc[..], 4 * i), Load(secret, 4 * i));
      var hi := ScrambleVec(Load(acc[..], 4 * i + 2), Load(secret, 4 * i + 2));
      DoneTwo(cur, first, final, 4 * i, lo.e0, lo.e1);
      DoneTwo(cur[4 * i := lo.e0][4 * i + 1 := lo.e1], first, final, 4 * i + 2, hi.e0, hi.e1);
      Store(acc, 4 * i, lo, hi);
      i := i + 1;
    }
  }
}

/** XXH_mult64to128 of src/xxhash/xxhash.h in its portable form: 64-bit words only, and exact. */
module Mult128 {
  type u64 = x: int | 0 <= x < 0x1_0000_0000_0000_0000

  /** XXH_mult32to64: the product of the low halves. */
  function Mult32To64(x: u64, y: u64): (p: u64)
    ensures p <= 0xffff_ffff * 0xffff_ffff
  {
    var a, b := x % 0x1_0000_0000, y % 0x1_0000_0000;
    ProductBound(a, b);
    a * b
  }

  lemma ProductBound(a: int, b: int)
    requires 0 <= a <= 0xffff_ffff && 0 <= b <= 0xffff_ffff
    ensures 0 <= a * b <= 0xffff_ffff * 0xffff_ffff
  {
    assert (0xffff_ffff - a) * b >= 0;
  }

  /** 64-bit addition, which wraps. */
  function Add64(x: u64, y: u64): u64 {
    (x + y) % 0x1_0000_0000_0000_0000
  }

  /** x << 32 in 64 bits. */
  function Shl32(x: u64): u64 {
    x * 0x1_0000_0000 % 0x1_0000_0000_0000_0000
  }

  lemma NoWrap(x: u64, y: u64)
    requires x + y < 0x1_0000_0000_0000_0000
    ensures Add64(x, y) == x + y
  {
  }

  lemma HighPart(x: u64)
    ensures Shl32(x) == x % 0x1_0000_0000 * 0x1_0000_0000
  {
    var q := x / 0x1_0000_0000;
    assert x == q * 0x1_0000_0000 + x % 0x1_0000_0000;
    assert x * 0x1_0000_0000 == q * 0x1_0000_0000_0000_0000 + x % 0x1_0000_0000 * 0x1_0000_0000;
  }

  /** The school multiplication in base 2^32. */
  lemma School(ah: nat, al: nat, bh: nat, bl: nat)
    ensures (ah * 0x1_0000_0000 + al) * (bh * 0x1_0000_0000 + bl)
         == ah * bh * 0x1_0000_0000_0000_0000 + (ah * bl + al * bh) * 0x1_0000_0000 + al * bl
  {
    var B := 0x1_0000_0000;
    calc {
      (ah * B + al) * (bh * B + bl);
      ah * B * (bh * B) + ah * B * bl + al * (bh * B) + al * bl;
      ah * bh * (B * B) + (ah * bl + al * bh) * B + al * bl;
    }
  }

  /** Putting the four products back together. */
  lemma Recombine(ll: nat, hl: nat, lh: nat, hh: nat, cross: nat, upper: nat, lower: nat)
    requires cross == ll / 0x1_0000_0000 + hl % 0x1_0000_0000 + lh
    requires upper == hl / 0x1_0000_0000 + cross / 0x1_0000_0000 + hh
    requires lower == cross % 0x1_0000_0000 * 0x1_0000_0000 + ll % 0x1_0000_0000
    ensures upper * 0x1_0000_0000_0000_0000 + lower == hh * 0x1_0000_0000_0000_0000 + (hl + lh) * 0x1_0000_0000 + ll
  {
  }

  lemma Halves(x: u64)
    ensures x == x / 0x1_0000_0000 * 0x1_0000_0000 + x % 0x1_0000_0000
    ensures 0 <= x / 0x1_0000_0000 < 0x1_0000_0000
    ensures x / 0x1_0000_0000 % 0x1_0000_0000 == x / 0x1_0000_0000
  {
  }

  lemma Mult32Is(x: u64, y: u64)
    ensures Mult32To64(x, y) == x % 0x1_0000_0000 * (y % 0x1_0000_0000)
  {
  }

  /** None of the four sums of the algorithm wraps. */
  lemma SumsFit(ll: u64, hl: u64, lh: u64, hh: u64)
    requires ll <= 0xffff_ffff * 0xffff_ffff && hl <= 0xffff_ffff * 0xffff_ffff
    requires lh <= 0xffff_ffff * 0xffff_ffff && hh <= 0xffff_ffff * 0xffff_ffff
    ensures var c := ll / 0x1_0000_0000 + hl % 0x1_0000_0000;
      && c + lh < 0x1_0000_0000_0000_0000
      && hl / 0x1_0000_0000 + (c + lh) / 0x1_0000_0000 + hh < 0x1_0000_0000_0000_0000
  {
  }

  /** XXH_mult64to128. The two parts of `lower` have no bits in common, so its | is a sum. */
  method Mult64To128(lhs: u64, rhs: u64) returns (low64: u64, high64: u64)
    ensures high64 * 0x1_0000_0000_0000_0000 + low64 == lhs * rhs
  {
    hide Mult32To64, Add64, Shl32;
    Halves(lhs);
    Halves(rhs);
    var lo_lo := Mult32To64(lhs, rhs);
    var hi_lo := Mult32To64(lhs / 0x1_0000_0000, rhs);
    var lo_hi := Mult32To64(lhs, rhs / 0x1_0000_0000);
    var hi_hi := Mult32To64(lhs / 0x1_0000_0000, rhs / 0x1_0000_0000);

    SumsFit(lo_lo, hi_lo, lo_hi, hi_hi);
    NoWrap(lo_lo / 0x1_0000_0000, hi_lo % 0x1_0000_0000);
    NoWrap(lo_lo / 0x1_0000_0000 + hi_lo % 0x1_0000_0000, lo_hi);
    var cross := Add64(Add64(lo_lo / 0x1_0000_0000, hi_lo % 0x1_0000_0000), lo_hi);
    NoWrap(hi_lo / 0x1_0000_0000, cross / 0x1_0000_0000);
    NoWrap(hi_lo / 0x1_0000_0000 + cross / 0x1_0000_0000, hi_hi);
    var upper := Add64(Add64(hi_lo / 0x1_0000_0000, cross / 0x1_0000_0000), hi_hi);
    HighPart(cross);
    var lower := Shl32(cross) + lo_lo % 0x1_0000_0000;
    low64, high64 := lower, upper;

    Recombine(lo_lo, hi_lo, lo_hi, hi_hi, cross, upper, lower);
    Together(lhs, rhs, lo_lo, hi_lo, lo_hi, hi_hi);
  }

  /** The four products make up the product. */
  lemma Together(lhs: u64, rhs: u64, ll: u64, hl: u64, lh: u64, hh: u64)
    requires ll == Mult32To64(lhs, rhs) && hl == Mult32To64(lhs / 0x1_0000_0000, rhs)
    requires lh == Mult32To64(lhs, rhs / 0x1_0000_0000)
    requires hh == Mult32To64(lhs / 0x1_0000_0000, rhs / 0x1_0000_0000)
    ensures hh * 0x1_0000_0000_0000_0000 + (hl + lh) * 0x1_0000_0000 + ll == lhs * rhs
  {
    hide Mult32To64;
    Halves(lhs);
    Halves(rhs);
    Mult32Is(lhs, rhs);
    Mult32Is(lhs / 0x1_0000_0000, rhs);
    Mult32Is(lhs, rhs / 0x1_0000_0000);
    Mult32Is(lhs / 0x1_0000_0000, rhs / 0x1_0000_0000);
    School(lhs / 0x1_0000_0000, lhs % 0x1_0000_0000, rhs / 0x1_0000_0000, rhs % 0x1_0000_0000);
  }
}

/**
 The final mixes of src/xxhash/xxhash.h lose nothing: each avalanche is undone by another function, and
 so inputs of one to three bytes never collide under XXH3.
 */
module Avalanche {
  import opened Mixes
  import opened StripeFold
  import Xxh32
  import Xxh64

  // ---------- XXH64_avalanche

  function UnAvalanche64(h: bv64): bv64 {
    Shift33(UnTimes2(UnShift29(UnTimes3(Shift32(h)))))
  }

  /** XXH64_avalanche is a bijection of the 64-bit words. */
  lemma Avalanche64Bijective(h: bv64)
    ensures UnAvalanche64(Xxh64.Avalanche(h)) == h
    ensures Xxh64.Avalanche(UnAvalanche64(h)) == h
  {
    hide Shift29, Shift32, Shift33, Times2, Times3, UnShift29, UnTimes2, UnTimes3;
    Shift33Undone(h);
    Times2Undone(Shift33(h));
    Shift29Undone(Times2(Shift33(h)));
    Times3Undone(Shift29(Times2(Shift33(h))));
    Shift32Undone(Times3(Shift29(Times2(Shift33(h)))));
    Shift32Undone(h);
    Times3Undone(Shift32(h));
    Shift29Undone(UnTimes3(Shift32(h)));
    Times2Undone(UnShift29(UnTimes3(Shift32(h))));
    Shift33Undone(UnTimes2(UnShift29(UnTimes3(Shift32(h)))));
  }

  /** XXH3_avalanche */
  function Avalanche3(h: bv64): bv64 {
    Shift32(TimesX(Shift37(h)))
  }

  // ---------- XXH3_avalanche

  function UnAvalancheX(h: bv64): bv64 {
    Shift37(UnTimesX(Shift32(h)))
  }

  /** XXH3_avalanche is a bijection of the 64-bit words. */
  lemma AvalancheXBijective(h: bv64)
    ensures UnAvalancheX(Avalanche3(h)) == h
    ensures Avalanche3(UnAvalancheX(h)) == h
  {
    hide Shift32, Shift37, TimesX, UnTimesX;
    Shift37Undone(h);
    TimesXUndone(Shift37(h));
    Shift32Undone(TimesX(Shift37(h)));
    Shift32Undone(h);
    TimesXUndone(Shift32(h));
    Shift37Undone(UnTimesX(Shift32(h)));
  }

  // ---------- XXH32_avalanche

  function UnAvalanche32(h: bv32): bv32 {
    UnWord15(UnWord2(UnWord13(UnWord3(Word16(h)))))
  }

  /** XXH32_avalanche is a bijection of the 32-bit words. */
  lemma Avalanche32Bijective(h: bv32)
    ensures UnAvalanche32(Xxh32.Avalanche(h)) == h
    ensures Xxh32.Avalanche(UnAvalanche32(h)) == h
  {
    hide UnWord13, UnWord15, UnWord2, UnWord3, Word13, Word15, Word16, Word2, Word3;
    Word15Undone(h);
    Word2Undone(Word15(h));
    Word13Undone(Word2(Word15(h)));
    Word3Undone(Word13(Word2(Word15(h))));
    Word16Undone(Word3(Word13(Word2(Word15(h)))));
    Word16Undone(h);
    Word3Undone(Word16(h));
    Word13Undone(UnWord3(Word16(h)));
    Word2Undone(UnWord13(UnWord3(Word16(h))));
    Word15Undone(UnWord2(UnWord13(UnWord3(Word16(h)))));
  }

  // ---------- XXH3 of one to three bytes

  /** The packing of XXH3_len_1to3_64b: first and middle byte high, the length, the last byte. */
  function Packed(s: seq<byte>): bv32
    requires 1 <= |s| <= 3
  {
    var c1, c2, c3 := s[0], s[|s| / 2], s[|s| - 1];
    ((c1 as bv32) << 16) | ((c2 as bv32) << 24) | (c3 as bv32) | ((|s| as bv32) << 8)
  }

  function Unpacked(x: bv32): seq<byte> {
    var len := (x >> 8) & 0xff;
    var c1, c2, c3 := ((x >> 16) & 0xff) as byte, (x >> 24) as byte, (x & 0xff) as byte;
    if len == 1 then [c3] else if len == 2 then [c1, c3] else [c1, c2, c3]
  }

  lemma Fields(c1: bv8, c2: bv8, c3: bv8, len: bv32)
    requires len < 4
    ensures var x := ((c1 as bv32) << 16) | ((c2 as bv32) << 24) | (c3 as bv32) | (len << 8);
      && (x >> 8) & 0xff == len && ((x >> 16) & 0xff) as byte == c1
      && (x >> 24) as byte == c2 && (x & 0xff) as byte == c3
  {
  }

  lemma PackingKeepsAll(s: seq<byte>)
    requires 1 <= |s| <= 3
    ensures Unpacked(Packed(s)) == s
  {
    if |s| == 1 { Fields(s[0], s[0], s[0], 1); }
    else if |s| == 2 { Fields(s[0], s[1], s[1], 2); }
    else { Fields(s[0], s[1], s[2], 3); }
  }

  /** (XXH_readLE32(secret) ^ XXH_readLE32(secret+4)) + seed */
  function Bitflip(secret: seq<byte>, seed: bv64): bv64
    requires |secret| >= 8
  {
    Plus64(Xor64(Xxh64.Read32(secret, 0), Xxh64.Read32(secret, 4)), seed)
  }

  function Keyed(x: bv32, flip: bv64): bv64 {
    Xor64(x as bv64, flip)
  }

  function Unkeyed(k: bv64, flip: bv64): bv32 {
    ((k ^ flip) & 0xffff_ffff) as bv32
  }

  lemma KeyedUndone(x: bv32, f: bv64)
    ensures Unkeyed(Keyed(x, f), f) == x
  {
    calc { Unkeyed(Keyed(x, f), f); Unkeyed((x as bv64) ^ f, f); x; }
  }

  /** XXH3_len_1to3_64b */
  function Len1To3(s: seq<byte>, secret: seq<byte>, seed: bv64): bv64
    requires 1 <= |s| <= 3 && |secret| >= 8
  {
    Xxh64.Avalanche(Keyed(Packed(s), Bitflip(secret, seed)))
  }

  function Recovered(h: bv64, secret: seq<byte>, seed: bv64): seq<byte>
    requires |secret| >= 8
  {
    Unpacked(Unkeyed(UnAvalanche64(h), Bitflip(secret, seed)))
  }

  /** The input can be read off the hash. */
  lemma ShortRecoverable(s: seq<byte>, secret: seq<byte>, seed: bv64)
    requires 1 <= |s| <= 3 && |secret| >= 8
    ensures Recovered(Len1To3(s, secret, seed), secret, seed) == s
  {
    hide Xxh64.Avalanche, UnAvalanche64, Packed, Unpacked, Bitflip, Keyed, Unkeyed;
    var f := Bitflip(secret, seed);
    Avalanche64Bijective(Keyed(Packed(s), f));
    KeyedUndone(Packed(s), f);
    PackingKeepsAll(s);
  }

  /** Different inputs of one to three bytes have different hashes, under any secret and seed. */
  lemma ShortDistinct(s: seq<byte>, t: seq<byte>, secret: seq<byte>, seed: bv64)
    requires 1 <= |s| <= 3 && 1 <= |t| <= 3 && |secret| >= 8
    ensures Len1To3(s, secret, seed) == Len1To3(t, secret, seed) <==> s == t
  {
    hide Len1To3, Recovered;
    ShortRecoverable(s, secret, seed);
    ShortRecoverable(t, secret, seed);
  }
}

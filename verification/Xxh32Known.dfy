/** Known answers of XXH32, computed operation by operation as in module Xxh64Known. */
module Xxh32Known {
  import opened Mixes
  import opened StripeFold
  import opened Xxh32

  lemma RoundBy(acc: Word, input: Word, p: Word, s: Word, t: Word, r: Word)
    requires Times32(input, 0x85EBCA77) == p && Plus32(acc, p) == s && Rotl(s, 13) == t && Times32(t, 0x9E3779B1) == r
    ensures Round(acc, input) == r
  {
    hide Times32, Plus32, Rotl;
  }

  lemma Process4By(h: Word, s: seq<byte>, w: Word, p: Word, x: Word, t: Word, r: Word)
    requires |s| >= 4 && Read(s, 0) == w && Times32(w, 0xC2B2AE3D) == p && Plus32(h, p) == x
    requires Rotl(x, 17) == t && Times32(t, 0x27D4EB2F) == r
    ensures Process4(h, s) == r
  {
    hide Times32, Plus32, Rotl, Read;
  }

  lemma Process1By(h: Word, b: byte, p: Word, x: Word, t: Word, r: Word)
    requires Times32(b as Word, 0x165667B1) == p && Plus32(h, p) == x && Rotl(x, 11) == t &&
        Times32(t, 0x9E3779B1) == r
    ensures Process1(h, b) == r
  {
    hide Times32, Plus32, Rotl;
  }

  lemma AvalancheBy(h: Word, a: Word, b: Word, c: Word, d: Word, r: Word)
    requires Word15(h) == a && Word2(a) == b && Word13(b) == c && Word3(c) == d && Word16(d) == r
    ensures Avalanche(h) == r
  {
    hide Word15, Word2, Word13, Word3, Word16;
  }

  lemma EmptyStart()
    ensures AddLength(Short(0x0), Low(0)) == 0x165667b1
  {
  }

  lemma Empty()
    ensures Hash([], 0x0) == 0x2cc5d05
  {
    AvalancheBy(0x165667b1, 0x16564b1d, 0x7e00cc7b, 0x7e033c7d, 0x2cc5fc9, 0x2cc5d05);
    hide Avalanche, AddLength, Short, Low;
    EmptyStart();
  }

  lemma EmptySeededStart()
    ensures AddLength(Short(0x9e3779b1), Low(0)) == 0xb48de162
  {
  }

  lemma EmptySeeded()
    ensures Hash([], 0x9e3779b1) == 0x36b78ae7
  {
    AvalancheBy(0xb48de162, 0xb48c8879, 0xf515ea3f, 0xf5124290, 0x36b7bc50, 0x36b78ae7);
    hide Avalanche, AddLength, Short, Low;
    EmptySeededStart();
  }

  // ---------- two stripes, a word of four bytes and three bytes

  /** "Nobody inspects the spammish repetition" */
  function Text(): seq<byte> {
    Front() + Middle() + [0x65, 0x74, 0x69, 0x74, 0x69, 0x6f, 0x6e]
  }

  function Front(): seq<byte> {
    [0x4e, 0x6f, 0x62, 0x6f, 0x64, 0x79, 0x20, 0x69, 0x6e, 0x73, 0x70, 0x65, 0x63, 0x74, 0x73, 0x20]
  }

  function Middle(): seq<byte> {
    [0x74, 0x68, 0x65, 0x20, 0x73, 0x70, 0x61, 0x6d, 0x6d, 0x69, 0x73, 0x68, 0x20, 0x72, 0x65, 0x70]
  }

  lemma FrontWords()
    ensures var s := Front(); |s| == 16 && Read(s, 0) == 0x6f626f4e && Read(s, 4) == 0x69207964
    ensures var s := Front(); |s| == 16 && Read(s, 8) == 0x6570736e && Read(s, 12) == 0x20737463
  {
  }

  lemma FirstStripe()
    ensures Stripe(Initial(0), Front()) == Lanes(0x46a700a, 0xbfadf8e3, 0x5b32b4aa, 0x137e5555)
  {
    FrontWords();
    assert Initial(0) == Lanes(0x24234428, 0x85ebca77, 0x0, 0x61c8864f);
    RoundBy(0x24234428, 0x6f626f4e, 0x252f4942, 0x49528d6a, 0x51ad492a, 0x46a700a);
    RoundBy(0x85ebca77, 0x69207964, 0xe0ad557c, 0x66991ff3, 0x23fe6cd3, 0xbfadf8e3);
    RoundBy(0x0, 0x6570736e, 0xfe547422, 0xfe547422, 0x8e845fca, 0x5b32b4aa);
    RoundBy(0x61c8864f, 0x20737463, 0x75623805, 0xd72abe54, 0x57ca9ae5, 0x137e5555);
    hide Initial, Round, Read, Front;
  }

  lemma MiddleWords()
    ensures var s := Middle(); |s| == 16 && Read(s, 0) == 0x20656874 && Read(s, 4) == 0x6d617073
    ensures var s := Middle(); |s| == 16 && Read(s, 8) == 0x6873696d && Read(s, 12) == 0x70657220
  {
  }

  lemma SecondStripe()
    ensures Stripe(Lanes(0x46a700a, 0xbfadf8e3, 0x5b32b4aa, 0x137e5555), Middle()) == Lanes(0x719a836e,
        0x514c1de8, 0x97fa4ba2, 0x242a97a2)
  {
    MiddleWords();
    RoundBy(0x46a700a, 0x20656874, 0x3a0b15ec, 0x3e7585f6, 0xb0bec7ce, 0x719a836e);
    RoundBy(0xbfadf8e3, 0x6d617073, 0xb3970375, 0x7344fc58, 0x9f8b0e68, 0x514c1de8);
    RoundBy(0x5b32b4aa, 0x6873696d, 0x6e503ab, 0x6217b855, 0xf70aac42, 0x97fa4ba2);
    RoundBy(0x137e5555, 0x70657220, 0xae954ce0, 0xc213a235, 0x7446b842, 0x242a97a2);
    hide Initial, Round, Read, Middle;
  }

  lemma TextConverge()
    ensures Converge(Lanes(0x719a836e, 0x514c1de8, 0x97fa4ba2, 0x242a97a2)) == 0x8c86b52d
  {
    assert Rotl(0x719a836e, 1) == 0xe33506dc && Rotl(0x514c1de8, 7) == 0xa60ef428;
    assert Rotl(0x97fa4ba2, 12) == 0xa4ba297f && Rotl(0x242a97a2, 18) == 0x5e8890aa;
    assert Plus32(0xe33506dc, 0xa60ef428) == 0x8943fb04;
    assert Plus32(0x8943fb04, 0xa4ba297f) == 0x2dfe2483 && Plus32(0x2dfe2483, 0x5e8890aa) == 0x8c86b52d;
    hide Rotl, Plus32;
  }

  lemma TextTail()
    ensures Finished(0x8c86b554, [0x65, 0x74, 0x69, 0x74, 0x69, 0x6f, 0x6e]) == 0xe2293b2f
  {
    var t := [0x65, 0x74, 0x69, 0x74, 0x69, 0x6f, 0x6e];
    assert t[4..] == [0x69, 0x6f, 0x6e];
    assert Read(t, 0) == 0x74697465;
    Process4By(0x8c86b554, t, 0x74697465, 0xe2776211, 0x6efe1765, 0x2ecaddfc, 0x9b51544);
    Process1By(0x9b51544, 0x69, 0x29708799, 0x33259cdd, 0x2ce6e999, 0xcdefd3c9);
    Process1By(0xcdefd3c9, 0x6f, 0xaf76f5bf, 0x7d66c988, 0x364c43eb, 0x3852087b);
    Process1By(0x3852087b, 0x6e, 0x99208e0e, 0xd1729689, 0x94b44e8b, 0xb3a7011b);
    AvalancheBy(0xb3a7011b, 0xb3a66655, 0xe81fa383, 0xe818e37e, 0xe229d906, 0xe2293b2f);
    hide Process4, Process1, Avalanche, Read;
    assert Bytes(0xb3a7011b, []) == 0xe2293b2f;
    assert Bytes(0x3852087b, [0x6e]) == 0xe2293b2f;
    assert Bytes(0xcdefd3c9, [0x6f, 0x6e]) == 0xe2293b2f;
  }

  /** An input of two stripes and a rest. */
  lemma TwoStripes(a: seq<byte>, b: seq<byte>, t: seq<byte>, seed: Word)
    requires |a| == |b| == 16 && |t| < 16
    ensures Hash(a + b + t, seed) ==
              Finished(AddLength(Converge(Stripe(Stripe(Initial(seed), a), b)), Low(32 + |t|)), t)
  {
    hide Initial, Stripe, Converge, Finished, AddLength, Low;
    var s := a + b + t;
    assert s[..16] == a && s[16..] == b + t && (b + t)[..16] == b && (b + t)[16..] == t && s[32..] == t;
    var v := Stripe(Initial(seed), a);
    assert Fold(16, Stripe, v, b + t) == Fold(16, Stripe, Stripe(v, b), t);
    WholeIs(|s|, 2);
  }

  lemma Low39()
    ensures Low(39) == 39
  {
    assert Wrap(39) == 39;
  }

  lemma TextAdds()
    ensures AddLength(0x8c86b52d, Low(39)) == 0x8c86b554
  {
    hide Low;
    Low39();
  }

  lemma TextHash()
    ensures Hash(Text(), 0) == 0xe2293b2f
  {
    hide Initial, Stripe, Converge, Finished, AddLength, Low, Front, Middle;
    FrontWords();
    MiddleWords();
    TwoStripes(Front(), Middle(), [0x65, 0x74, 0x69, 0x74, 0x69, 0x6f, 0x6e], 0);
    FirstStripe();
    SecondStripe();
    TextConverge();
    TextAdds();
    TextTail();
  }

  // ---------- three words of four bytes and two bytes, with a seed

  lemma Low14()
    ensures Low(14) == 14
  {
    assert Wrap(14) == 14;
  }

  lemma SeededStart()
    ensures AddLength(Short(0x9e3779b1), Low(14)) == 0xb48de170
  {
    hide Low;
    Low14();
  }

  lemma SeededWord0()
    ensures Process4(0xb48de170, [0x00, 0x52, 0x92, 0x9b, 0xb7, 0x32, 0xa3, 0x24, 0x2d, 0x00, 0xaf, 0x95, 0x0e,
        0xec]) == 0x57ea6c52
  {
    var t := [0x00, 0x52, 0x92, 0x9b, 0xb7, 0x32, 0xa3, 0x24, 0x2d, 0x00, 0xaf, 0x95, 0x0e, 0xec];
    assert Read(t, 0) == 0x9b925200;
    hide Read;
    Process4By(0xb48de170, t, 0x9b925200, 0x89998a00, 0x3e276b70, 0xd6e07c4e, 0x57ea6c52);
  }

  lemma SeededWord1()
    ensures Process4(0x57ea6c52, [0xb7, 0x32, 0xa3, 0x24, 0x2d, 0x00, 0xaf, 0x95, 0x0e, 0xec]) == 0xf3bbbd49
  {
    var t := [0xb7, 0x32, 0xa3, 0x24, 0x2d, 0x00, 0xaf, 0x95, 0x0e, 0xec];
    assert Read(t, 0) == 0x24a332b7;
    hide Read;
    Process4By(0x57ea6c52, t, 0x24a332b7, 0x9899779b, 0xf083e3ed, 0xc7dbe107, 0xf3bbbd49);
  }

  lemma SeededWord2()
    ensures Process4(0xf3bbbd49, [0x2d, 0x00, 0xaf, 0x95, 0x0e, 0xec]) == 0x71aed6f2
  {
    var t := [0x2d, 0x00, 0xaf, 0x95, 0x0e, 0xec];
    assert Read(t, 0) == 0x95af002d;
    hide Read;
    Process4By(0xf3bbbd49, t, 0x95af002d, 0xd61ba0b9, 0xc9d75e02, 0xbc0593ae, 0x71aed6f2);
  }

  lemma SeededBytes()
    ensures Bytes(0x71aed6f2, [0x0e, 0xec]) == 0x6af1d1fe
  {
    Process1By(0x71aed6f2, 0xe, 0x38b9abae, 0xaa6882a0, 0x44150553, 0x60e1e963);
    Process1By(0x60e1e963, 0xec, 0x97a7972c, 0xf889808f, 0x4c047fc4, 0x1a9bfa84);
    AvalancheBy(0x1a9bfa84, 0x1a9bcfb3, 0xf8a1ca35, 0xf8a60f3b, 0x6af1bb0f, 0x6af1d1fe);
    hide Process1, Avalanche;
    assert Bytes(0x1a9bfa84, []) == 0x6af1d1fe;
    assert Bytes(0x60e1e963, [0xec]) == 0x6af1d1fe;
  }

  lemma SeededHash()
    ensures Hash([0x00, 0x52, 0x92, 0x9b, 0xb7, 0x32, 0xa3, 0x24, 0x2d, 0x00, 0xaf, 0x95, 0x0e, 0xec],
        0x9e3779b1) == 0x6af1d1fe
  {
    var t := [0x00, 0x52, 0x92, 0x9b, 0xb7, 0x32, 0xa3, 0x24, 0x2d, 0x00, 0xaf, 0x95, 0x0e, 0xec];
    assert t[4..] == [0xb7, 0x32, 0xa3, 0x24, 0x2d, 0x00, 0xaf, 0x95, 0x0e, 0xec] &&
        t[4..][4..] == [0x2d, 0x00, 0xaf, 0x95, 0x0e, 0xec];
    assert t[4..][4..][4..] == [0x0e, 0xec];
    assert |t| == 14 && t[Whole(14)..] == t;
    hide Short, AddLength, Low, Process4, Bytes;
    SeededStart();
    SeededWord0();
    SeededWord1();
    SeededWord2();
    SeededBytes();
    assert Finished(0xf3bbbd49, t[4..][4..]) == 0x6af1d1fe;
    assert Finished(0x57ea6c52, t[4..]) == 0x6af1d1fe;
  }
}

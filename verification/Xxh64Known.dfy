/**
 Known answers of XXH64: inputs with and without stripes, with every kind of tail, without and with a seed. Each
 is computed operation by operation, so that no single step asks the verifier for more than one of them.
 */
module Xxh64Known {
  import opened Mixes
  import opened StripeFold
  import Numbers64
  import opened Xxh64

  // ---------- the functions of XXH64, given what each operation yields

  lemma RoundBy(acc: u64, input: u64, p: u64, s: u64, t: u64, r: u64)
    requires Times64(input, 0xC2B2AE3D27D4EB4F) == p && Plus64(acc, p) == s
    requires Rotl(s, 31) == t && Times64(t, 0x9E3779B185EBCA87) == r
    ensures Round(acc, input) == r
  {
    hide Times64, Plus64, Rotl;
  }

  lemma MergeBy(acc: u64, val: u64, k: u64, x: u64, t: u64, r: u64)
    requires Round(0, val) == k && Xor64(acc, k) == x
    requires Times64(x, 0x9E3779B185EBCA87) == t && Plus64(t, 0x85EBCA77C2B2AE63) == r
    ensures MergeRound(acc, val) == r
  {
    hide Times64, Plus64, Xor64, Round;
  }

  lemma Process8By(h: u64, s: seq<byte>, w: u64, k: u64, x: u64, y: u64, z: u64, r: u64)
    requires |s| >= 8 && Read(s, 0) == w && Round(0, w) == k && Xor64(h, k) == x && Rotl(x, 27) == y
    requires Times64(y, 0x9E3779B185EBCA87) == z && Plus64(z, 0x85EBCA77C2B2AE63) == r
    ensures Process8(h, s) == r
  {
    hide Times64, Plus64, Xor64, Rotl, Round, Read;
  }

  lemma Process4By(h: u64, s: seq<byte>, w: u64, k: u64, x: u64, y: u64, z: u64, r: u64)
    requires |s| >= 4 && Read32(s, 0) == w && Times64(w, 0x9E3779B185EBCA87) == k && Xor64(h, k) == x
    requires Rotl(x, 23) == y && Times64(y, 0xC2B2AE3D27D4EB4F) == z && Plus64(z, 0x165667B19E3779F9) == r
    ensures Process4(h, s) == r
  {
    hide Times64, Plus64, Xor64, Rotl, Read32;
  }

  lemma Process1By(h: u64, b: byte, k: u64, x: u64, y: u64, r: u64)
    requires Times64(b as u64, 0x27D4EB2F165667C5) == k && Xor64(h, k) == x
    requires Rotl(x, 11) == y && Times64(y, 0x9E3779B185EBCA87) == r
    ensures Process1(h, b) == r
  {
    hide Times64, Xor64, Rotl;
  }

  lemma AvalancheBy(h: u64, a: u64, b: u64, c: u64, d: u64, r: u64)
    requires Shift33(h) == a && Times2(a) == b && Shift29(b) == c && Times3(c) == d && Shift32(d) == r
    ensures Avalanche(h) == r
  {
    hide Shift33, Times2, Shift29, Times3, Shift32;
  }

  lemma EmptyStart()
    ensures AddLength(Short(0x0), Low(0)) == 0x27d4eb2f165667c5
  {
  }

  lemma Empty()
    ensures Hash([], 0x0) == 0xef46db3751d8e999
  {
    AvalancheBy(0x27d4eb2f165667c5, 0x27d4eb2f05bc1252, 0xbeb13dda13c2ed4e, 0xbeb13ddfe64b039e,
                0xef46db37be9e32ae, 0xef46db3751d8e999);
    hide Avalanche, AddLength, Short, Low;
    EmptyStart();
  }

  lemma EmptySeededStart()
    ensures AddLength(Short(0x9e3779b1), Low(0)) == 0x27d4eb2fb48de176
  {
  }

  lemma EmptySeeded()
    ensures Hash([], 0x9e3779b1) == 0xac75fda2929b17ef
  {
    AvalancheBy(0x27d4eb2fb48de176, 0x27d4eb2fa76794e1, 0x15e223734ff57c6f, 0x15e22373e0e467f5,
                0xac75fda23eeeea4d, 0xac75fda2929b17ef);
    hide Avalanche, AddLength, Short, Low;
    EmptySeededStart();
  }

  // ---------- an input of one stripe and a rest of seven bytes

  /** "Nobody inspects the spammish repetition" */
  function Text(): seq<byte> {
    TextFront() + [0x65, 0x74, 0x69, 0x74, 0x69, 0x6f, 0x6e]
  }

  function TextFront(): seq<byte> {
    [0x4e, 0x6f, 0x62, 0x6f, 0x64, 0x79, 0x20, 0x69] +
    [0x6e, 0x73, 0x70, 0x65, 0x63, 0x74, 0x73, 0x20] +
    [0x74, 0x68, 0x65, 0x20, 0x73, 0x70, 0x61, 0x6d] +
    [0x6d, 0x69, 0x73, 0x68, 0x20, 0x72, 0x65, 0x70]
  }

  lemma Slices(a: seq<byte>, b: seq<byte>, c: seq<byte>, d: seq<byte>)
    requires |a| == |b| == |c| == |d| == 8
    ensures var s := a + b + c + d; |s| == 32 && s[0..8] == a && s[8..16] == b && s[16..24] == c && s[24..32] == d
  {
  }

  lemma ReadAt(s: seq<byte>, at: nat)
    requires at + 8 <= |s|
    ensures Read(s, at) == Read(s[at..at + 8], 0)
  {
    var t := s[at..at + 8];
    assert s[at] == t[0] && s[at + 1] == t[1] && s[at + 2] == t[2] && s[at + 3] == t[3];
    assert s[at + 4] == t[4] && s[at + 5] == t[5] && s[at + 6] == t[6] && s[at + 7] == t[7];
  }

  lemma TextWord0()
    ensures Read([0x4e, 0x6f, 0x62, 0x6f, 0x64, 0x79, 0x20, 0x69], 0) == 0x692079646f626f4e
  {
  }

  lemma TextWord1()
    ensures Read([0x6e, 0x73, 0x70, 0x65, 0x63, 0x74, 0x73, 0x20], 0) == 0x207374636570736e
  {
  }

  lemma TextWord2()
    ensures Read([0x74, 0x68, 0x65, 0x20, 0x73, 0x70, 0x61, 0x6d], 0) == 0x6d61707320656874
  {
  }

  lemma TextWord3()
    ensures Read([0x6d, 0x69, 0x73, 0x68, 0x20, 0x72, 0x65, 0x70], 0) == 0x706572206873696d
  {
  }

  lemma TextWords()
    ensures var s := TextFront(); |s| == 32 && Read(s, 0) == 0x692079646f626f4e && Read(s, 8) == 0x207374636570736e
    ensures var s := TextFront(); |s| == 32 && Read(s, 16) == 0x6d61707320656874 && Read(s, 24) == 0x706572206873696d
  {
    hide Read;
    var s := TextFront();
    Slices([0x4e, 0x6f, 0x62, 0x6f, 0x64, 0x79, 0x20, 0x69], [0x6e, 0x73, 0x70, 0x65, 0x63, 0x74, 0x73, 0x20],
           [0x74, 0x68, 0x65, 0x20, 0x73, 0x70, 0x61, 0x6d], [0x6d, 0x69, 0x73, 0x68, 0x20, 0x72, 0x65, 0x70]);
    ReadAt(s, 0);
    ReadAt(s, 8);
    ReadAt(s, 16);
    ReadAt(s, 24);
    TextWord0();
    TextWord1();
    TextWord2();
    TextWord3();
  }

  lemma TextStripe()
    ensures Stripe(Initial(0), TextFront()) == Lanes(0x37245127a4067e4b, 0x1b302b0a818f92cf, 0xcd62d843d0580fca,
        0x1c16e43ef2142a4a)
  {
    TextWords();
    assert Initial(0) == Lanes(0x60ea27eeadc0b5d6, 0xc2b2ae3d27d4eb4f, 0x0, 0x61c8864e7a143579);
    RoundBy(0x60ea27eeadc0b5d6, 0x692079646f626f4e, 0x6f06e4cca24f312, 0x67da963b77e5a8e8, 0xbbf2d47433ed4b1d,
            0x37245127a4067e4b);
    RoundBy(0xc2b2ae3d27d4eb4f, 0x207374636570736e, 0xbef890b5e0c198f2, 0x81ab3ef308968441, 0x844b4220c0d59f79,
            0x1b302b0a818f92cf);
    RoundBy(0x0, 0x6d61707320656874, 0xa6264cc423db7cc, 0xa6264cc423db7cc, 0x211edbe605313266, 0xcd62d843d0580fca);
    RoundBy(0x61c8864e7a143579, 0x706572206873696d, 0x7ec4417e16a897a3, 0xe08cc7cc90bccd1c, 0x485e668e704663e6,
            0x1c16e43ef2142a4a);
    hide Initial, Round, Read, TextFront;
  }

  lemma TextConverge()
    ensures Converge(Lanes(0x37245127a4067e4b, 0x1b302b0a818f92cf, 0xcd62d843d0580fca, 0x1c16e43ef2142a4a)) ==
        0x84f22c421a11a8b5
  {
    assert Rotl(0x37245127a4067e4b, 1) == 0x6e48a24f480cfc96 && Rotl(0x1b302b0a818f92cf, 7) == 0x98158540c7c9678d;
    assert Rotl(0xcd62d843d0580fca, 12) == 0x2d843d0580fcacd6 && Rotl(0x1c16e43ef2142a4a, 18) == 0x90fbc850a928705b;
    assert Plus64(0x6e48a24f480cfc96, 0x98158540c7c9678d) == 0x65e27900fd66423;
    assert Plus64(0x65e27900fd66423, 0x2d843d0580fcacd6) == 0x33e2649590d310f9 &&
        Plus64(0x33e2649590d310f9, 0x90fbc850a928705b) == 0xc4de2ce639fb8154;
    RoundBy(0x0, 0x37245127a4067e4b, 0xbf0e534a970bd225, 0xbf0e534a970bd225, 0x4b85e912df8729a5, 0x7790ff1f7a9a2803);
    MergeBy(0xc4de2ce639fb8154, 0x37245127a4067e4b, 0x7790ff1f7a9a2803, 0xb34ed3f94361a957, 0xaae843653dfbf2e1,
            0x30d40ddd00aea144);
    RoundBy(0x0, 0x1b302b0a818f92cf, 0x40bcc4c2e37e52e1, 0x40bcc4c2e37e52e1, 0x71bf2970a05e6261, 0xdeced6c0bf716b27);
    MergeBy(0x30d40ddd00aea144, 0x1b302b0a818f92cf, 0xdeced6c0bf716b27, 0xee1adb1dbfdfca63, 0x5fb6261dfc96d835,
            0xe5a1f095bf498698);
    RoundBy(0x0, 0xcd62d843d0580fca, 0x1917ffa4faf34d56, 0x1917ffa4faf34d56, 0x7d79a6ab0c8bffd2, 0x70073eb805759bbe);
    MergeBy(0xe5a1f095bf498698, 0xcd62d843d0580fca, 0x70073eb805759bbe, 0x95a6ce2dba3c1d26, 0x73e31caa24955b0a,
            0xf9cee721e748096d);
    RoundBy(0x0, 0x1c16e43ef2142a4a, 0x2898226b8252fad6, 0x2898226b8252fad6, 0xc1297d6b144c1135, 0xc1cbbae50e57e4f3);
    MergeBy(0xf9cee721e748096d, 0x1c16e43ef2142a4a, 0xc1cbbae50e57e4f3, 0x38055dc4e91fed9e, 0xff0661ca575efa52,
            0x84f22c421a11a8b5);
    hide Rotl, Plus64, MergeRound;
  }

  lemma TextTail()
    ensures Finished(0x84f22c421a11a8dc, [0x65, 0x74, 0x69, 0x74, 0x69, 0x6f, 0x6e]) == 0xfbcea83c8a378bf1
  {
    var t := [0x65, 0x74, 0x69, 0x74, 0x69, 0x6f, 0x6e];
    assert t[4..] == [0x69, 0x6f, 0x6e];
    assert Read32(t, 0) == 0x74697465;
    Process4By(0x84f22c421a11a8dc, t, 0x74697465, 0xe9863933eb2b1343, 0x6d741571f13abb9f, 0xb8f89d5dcfb6ba0a,
               0x8973a7ab6c729716, 0x9fca0f5d0aaa110f);
    Process1By(0x9fca0f5d0aaa110f, 105, 0x5654765029708fcd, 0xc99e790d23da9ec2, 0xf3c8691ed4f6164c,
               0x769671546f21ba14);
    Process1By(0x769671546f21ba14, 111, 0x4551f96aaf76fe6b, 0x33c7883ec057447f, 0x3c41f602ba23f99e,
               0xeae9b643c5f94e52);
    Process1By(0xeae9b643c5f94e52, 110, 0x1d7d0e3b992096a6, 0xf794b8785cd9d8f4, 0xa5c3c2e6cec7a7bc,
               0x1d0a47483b37cc24);
    AvalancheBy(0x1d0a47483b37cc24, 0x1d0a474835b2ef80, 0x5f0214beaa126880, 0x5f0214bc5202cd75,
                0xfbcea83c71f923cd, 0xfbcea83c8a378bf1);
    hide Process4, Process1, Avalanche, Read32;
    assert Bytes(0x1d0a47483b37cc24, []) == 0xfbcea83c8a378bf1;
    assert Bytes(0xeae9b643c5f94e52, [0x6e]) == 0xfbcea83c8a378bf1;
    assert Bytes(0x769671546f21ba14, [0x6f, 0x6e]) == 0xfbcea83c8a378bf1;
  }

  /** One stripe, a word of four bytes and three bytes. */
  lemma TextHash()
    ensures Hash(Text(), 0) == 0xfbcea83c8a378bf1
  {
    hide Initial, Stripe, Converge, Finished, AddLength, Low, TextFront;
    TextWords();
    OneStripe(TextFront(), [0x65, 0x74, 0x69, 0x74, 0x69, 0x6f, 0x6e], 0);
    TextStripe();
    TextConverge();
    TextAdds();
    TextTail();
  }

  /** An input of one stripe and a rest. */
  lemma OneStripe(a: seq<byte>, t: seq<byte>, seed: u64)
    requires |a| == 32 && |t| < 32
    ensures Hash(a + t, seed) == Finished(AddLength(Converge(Stripe(Initial(seed), a)), Low(32 + |t|)), t)
  {
    hide Initial, Stripe, Converge, Finished, AddLength, Low;
    var s := a + t;
    assert s[..32] == a && s[32..] == t;
    assert Fold(32, Stripe, Initial(seed), s) == Fold(32, Stripe, Stripe(Initial(seed), a), t);
  }

  lemma TextAdds()
    ensures AddLength(0x84f22c421a11a8b5, Low(39)) == 0x84f22c421a11a8dc
  {
    Numbers64.NumberOfByte(39);
    Numbers64.WordNumber(39);
    hide Numbers64.Word;
  }

  // ---------- a word of eight bytes, a word of four and two bytes, with a seed

  lemma SeededStart()
    ensures AddLength(Short(0x9e3779b1), Low(14)) == 0x27d4eb2fb48de184
  {
    Numbers64.NumberOfByte(14);
    Numbers64.WordNumber(14);
    hide Numbers64.Word;
  }

  lemma SeededWord8()
    ensures Process8(0x27d4eb2fb48de184, [0x00, 0x52, 0x92, 0x9b, 0xb7, 0x32, 0xa3, 0x24, 0x2d, 0x00, 0xaf, 0x95,
        0x0e, 0xec]) == 0x6504b55664af389d
  {
    var t := [0x00, 0x52, 0x92, 0x9b, 0xb7, 0x32, 0xa3, 0x24, 0x2d, 0x00, 0xaf, 0x95, 0x0e, 0xec];
    RoundBy(0x0, 0x24a332b79b925200, 0xa044dc223b6d4e00, 0xa044dc223b6d4e00, 0x1db6a70050226e11, 0x137ee5f04b9c74f7);
    assert Read(t, 0) == 0x24a332b79b925200;
    hide Read, Round;
    Process8By(0x27d4eb2fb48de184, t, 0x24a332b79b925200, 0x137ee5f04b9c74f7, 0x34aa0edfff119573,
               0xfff88cab99a55076, 0xdf18eadea1fc8a3a, 0x6504b55664af389d);
  }

  lemma SeededWord4()
    ensures Process4(0x6504b55664af389d, [0x2d, 0x00, 0xaf, 0x95, 0x0e, 0xec]) == 0x1141ca4fdde538ed
  {
    var t := [0x2d, 0x00, 0xaf, 0x95, 0x0e, 0xec];
    assert Read32(t, 0) == 0x95af002d;
    hide Read32;
    Process4By(0x6504b55664af389d, t, 0x95af002d, 0x530d2d448fbb99bb, 0x36099812eb14a126, 0x9758a50931b04cc,
               0xfaeb629e3fadbef4, 0x1141ca4fdde538ed);
  }

  lemma SeededBytes()
    ensures Bytes(0x1141ca4fdde538ed, [0x0e, 0xec]) == 0xc3bd6bf63deb6df0
  {
    Process1By(0x1141ca4fdde538ed, 14, 0x2da4dc9338b9acc6, 0x3ce516dce55c942b, 0x28b6e72ae4a159e7,
               0x81b1cb8f6c13aed1);
    Process1By(0x81b1cb8f6c13aed1, 236, 0xb848cf6897a7a99c, 0x39f904e7fbb4074d, 0xc8273fdda03a69cf,
               0x2ba6fc0442502229);
    AvalancheBy(0x2ba6fc0442502229, 0x2ba6fc0457835c2b, 0xeda56dbe77c0ea45, 0xeda56db91aeb87b6,
                0xc3bd6bf6fe560606, 0xc3bd6bf63deb6df0);
    hide Process1, Avalanche;
    assert Bytes(0x2ba6fc0442502229, []) == 0xc3bd6bf63deb6df0;
    assert Bytes(0x81b1cb8f6c13aed1, [0xec]) == 0xc3bd6bf63deb6df0;
  }

  lemma SeededHash()
    ensures Hash([0x00, 0x52, 0x92, 0x9b, 0xb7, 0x32, 0xa3, 0x24, 0x2d, 0x00, 0xaf, 0x95, 0x0e, 0xec],
        0x9e3779b1) == 0xc3bd6bf63deb6df0
  {
    var t := [0x00, 0x52, 0x92, 0x9b, 0xb7, 0x32, 0xa3, 0x24, 0x2d, 0x00, 0xaf, 0x95, 0x0e, 0xec];
    assert t[8..] == [0x2d, 0x00, 0xaf, 0x95, 0x0e, 0xec] && t[8..][4..] == [0x0e, 0xec];
    assert |t| == 14 && t[Whole(14)..] == t;
    hide Short, AddLength, Low, Process8, Process4, Bytes;
    SeededStart();
    SeededWord8();
    SeededWord4();
    SeededBytes();
    assert Finished(0x6504b55664af389d, t[8..]) == 0xc3bd6bf63deb6df0;
  }
}

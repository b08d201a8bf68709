/**
 The operations of words, and the steps the avalanches of src/xxhash/xxhash.h are made of, a shift-xor or an
 odd multiplication each, with the steps that undo them. A function for each operation lets a proof leave out
 what the operation does.
 */
module Mixes {
  function Plus64(a: bv64, b: bv64): bv64 { a + b }
  function Minus64(a: bv64, b: bv64): bv64 { a - b }
  function Times64(a: bv64, b: bv64): bv64 { a * b }
  function Xor64(a: bv64, b: bv64): bv64 { a ^ b }

  lemma SumAssociates(x: bv64, y: bv64, z: bv64)
    ensures Plus64(Plus64(x, y), z) == Plus64(x, Plus64(y, z))
  {
    calc {
      Plus64(Plus64(x, y), z);
      Plus64(x + y, z);
      (x + y) + z;
      x + (y + z);
      Plus64(x, y + z);
      Plus64(x, Plus64(y, z));
    }
  }

  lemma Xor64Associates(a: bv64, b: bv64, c: bv64)
    ensures Xor64(Xor64(a, b), c) == Xor64(a, Xor64(b, c))
  {
    calc { Xor64(Xor64(a, b), c); Xor64(a ^ b, c); (a ^ b) ^ c; a ^ (b ^ c); Xor64(a, b ^ c); Xor64(a, Xor64(b, c)); }
  }

  lemma Xor64Cancels(a: bv64)
    ensures Xor64(a, a) == 0 && Xor64(a, 0) == a && Xor64(0, a) == a
  {
    calc { Xor64(a, a); a ^ a; 0; }
    calc { Xor64(a, 0); a ^ 0; a; }
    calc { Xor64(0, a); 0 ^ a; a; }
  }

  lemma Meet64(a: bv64, b: bv64)
    ensures Xor64(Xor64(a, b), b) == a
  {
    hide Xor64;
    Xor64Associates(a, b, b);
    Xor64Cancels(b);
    Xor64Cancels(a);
  }

  lemma Bridge64(a: bv64, b: bv64, c: bv64)
    ensures Xor64(Xor64(a, b), Xor64(b, c)) == Xor64(a, c)
  {
    hide Xor64;
    Xor64Associates(Xor64(a, b), b, c);
    Meet64(a, b);
  }

  /** What is left when equal terms meet. */
  lemma Cancel64(a: bv64, b: bv64, c: bv64)
    ensures Xor64(Xor64(a, b), Xor64(b, 0)) == a
    ensures Xor64(Xor64(Xor64(a, b), Xor64(b, c)), Xor64(c, 0)) == a
    ensures Xor64(Xor64(Xor64(a, b), c), Xor64(Xor64(b, c), 0)) == a
  {
    hide Xor64;
    Xor64Cancels(a);
    Bridge64(a, b, 0);
    Bridge64(a, b, c);
    Bridge64(a, c, 0);
    Xor64Associates(a, b, c);
    Bridge64(a, Xor64(b, c), 0);
  }

  function Shr64By33(a: bv64): bv64 { a >> 33 }

  lemma Shr64By33Xor(a: bv64, b: bv64)
    ensures Shr64By33(Xor64(a, b)) == Xor64(Shr64By33(a), Shr64By33(b))
  {
    calc { Shr64By33(Xor64(a, b)); (a ^ b) >> 33; (a >> 33) ^ (b >> 33); Xor64(Shr64By33(a), Shr64By33(b)); }
  }

  lemma Shr64By33Twice(a: bv64)
    ensures Shr64By33(Shr64By33(a)) == 0
  {
    calc { Shr64By33(Shr64By33(a)); (a >> 33) >> 33; 0; }
  }

  function Shift33(h: bv64): bv64 { Xor64(h, Shr64By33(h)) }

  lemma Shift33Undone(h: bv64)
    ensures Shift33(Shift33(h)) == h
  {
    hide Xor64, Shr64By33;
    Shr64By33Xor(h, Shr64By33(h));
    Shr64By33Twice(h);
    Cancel64(h, Shr64By33(h), 0);
  }

  function Shr64By29(a: bv64): bv64 { a >> 29 }

  lemma Shr64By29Xor(a: bv64, b: bv64)
    ensures Shr64By29(Xor64(a, b)) == Xor64(Shr64By29(a), Shr64By29(b))
  {
    calc { Shr64By29(Xor64(a, b)); (a ^ b) >> 29; (a >> 29) ^ (b >> 29); Xor64(Shr64By29(a), Shr64By29(b)); }
  }

  function Shr64By58(a: bv64): bv64 { a >> 58 }

  lemma Shr64By58Xor(a: bv64, b: bv64)
    ensures Shr64By58(Xor64(a, b)) == Xor64(Shr64By58(a), Shr64By58(b))
  {
    calc { Shr64By58(Xor64(a, b)); (a ^ b) >> 58; (a >> 58) ^ (b >> 58); Xor64(Shr64By58(a), Shr64By58(b)); }
  }

  lemma Shr64By29Twice(a: bv64)
    ensures Shr64By29(Shr64By29(a)) == Shr64By58(a) && Shr64By29(Shr64By58(a)) == 0 && Shr64By58(Shr64By29(a)) == 0
  {
    calc { Shr64By29(Shr64By29(a)); (a >> 29) >> 29; a >> 58; Shr64By58(a); }
    calc { Shr64By29(Shr64By58(a)); (a >> 58) >> 29; 0; }
    calc { Shr64By58(Shr64By29(a)); (a >> 29) >> 58; 0; }
  }

  function Shift29(h: bv64): bv64 { Xor64(h, Shr64By29(h)) }
  function UnShift29(h: bv64): bv64 { Xor64(Xor64(h, Shr64By29(h)), Shr64By58(h)) }

  lemma Shift29Undone(h: bv64)
    ensures UnShift29(Shift29(h)) == h && Shift29(UnShift29(h)) == h
  {
    hide Xor64, Shr64By29, Shr64By58;
    Shr64By29Twice(h);
    Shr64By29Xor(h, Shr64By29(h));
    Shr64By58Xor(h, Shr64By29(h));
    Shr64By29Xor(Xor64(h, Shr64By29(h)), Shr64By58(h));
    Cancel64(h, Shr64By29(h), Shr64By58(h));
  }

  function Shr64By32(a: bv64): bv64 { a >> 32 }

  lemma Shr64By32Xor(a: bv64, b: bv64)
    ensures Shr64By32(Xor64(a, b)) == Xor64(Shr64By32(a), Shr64By32(b))
  {
    calc { Shr64By32(Xor64(a, b)); (a ^ b) >> 32; (a >> 32) ^ (b >> 32); Xor64(Shr64By32(a), Shr64By32(b)); }
  }

  lemma Shr64By32Twice(a: bv64)
    ensures Shr64By32(Shr64By32(a)) == 0
  {
    calc { Shr64By32(Shr64By32(a)); (a >> 32) >> 32; 0; }
  }

  function Shift32(h: bv64): bv64 { Xor64(h, Shr64By32(h)) }

  lemma Shift32Undone(h: bv64)
    ensures Shift32(Shift32(h)) == h
  {
    hide Xor64, Shr64By32;
    Shr64By32Xor(h, Shr64By32(h));
    Shr64By32Twice(h);
    Cancel64(h, Shr64By32(h), 0);
  }

  function Shr64By37(a: bv64): bv64 { a >> 37 }

  lemma Shr64By37Xor(a: bv64, b: bv64)
    ensures Shr64By37(Xor64(a, b)) == Xor64(Shr64By37(a), Shr64By37(b))
  {
    calc { Shr64By37(Xor64(a, b)); (a ^ b) >> 37; (a >> 37) ^ (b >> 37); Xor64(Shr64By37(a), Shr64By37(b)); }
  }

  lemma Shr64By37Twice(a: bv64)
    ensures Shr64By37(Shr64By37(a)) == 0
  {
    calc { Shr64By37(Shr64By37(a)); (a >> 37) >> 37; 0; }
  }

  function Shift37(h: bv64): bv64 { Xor64(h, Shr64By37(h)) }

  lemma Shift37Undone(h: bv64)
    ensures Shift37(Shift37(h)) == h
  {
    hide Xor64, Shr64By37;
    Shr64By37Xor(h, Shr64By37(h));
    Shr64By37Twice(h);
    Cancel64(h, Shr64By37(h), 0);
  }

  lemma TimesAssociates(x: bv64, y: bv64, z: bv64)
    ensures Times64(Times64(x, y), z) == Times64(x, Times64(y, z))
  {
    calc {
      Times64(Times64(x, y), z);
      Times64(x * y, z);
      (x * y) * z;
      x * (y * z);
      Times64(x, y * z);
      Times64(x, Times64(y, z));
    }
  }

  lemma TimesDistributes(x: bv64, y: bv64, z: bv64)
    ensures Times64(Plus64(x, y), z) == Plus64(Times64(x, z), Times64(y, z))
  {
    calc {
      Times64(Plus64(x, y), z);
      Times64(x + y, z);
      (x + y) * z;
      x * z + y * z;
      Plus64(x * z, y * z);
      Plus64(Times64(x, z), Times64(y, z));
    }
  }

  lemma TimesOver(x: bv64, y: bv64, z: bv64)
    ensures Times64(x, Plus64(y, z)) == Plus64(Times64(x, y), Times64(x, z))
  {
    calc {
      Times64(x, Plus64(y, z));
      Times64(x, y + z);
      x * (y + z);
      x * y + x * z;
      Plus64(x * y, x * z);
      Plus64(Times64(x, y), Times64(x, z));
    }
  }

  lemma TimesOne(x: bv64)
    ensures Times64(x, 1) == x
  {
  }

  /** Multiplying by p and then by its inverse. */
  lemma ProductUndone(h: bv64, p: bv64, inverse: bv64)
    requires Times64(p, inverse) == 1
    ensures Times64(Times64(h, p), inverse) == h
  {
    hide Times64;
    TimesAssociates(h, p, inverse);
    TimesOne(h);
  }

  function Times2(h: bv64): bv64 { Times64(h, 0xC2B2AE3D27D4EB4F) }
  function UnTimes2(h: bv64): bv64 { Times64(h, 0x0BA79078168D4BAF) }

  lemma Times2Undone(h: bv64)
    ensures UnTimes2(Times2(h)) == h && Times2(UnTimes2(h)) == h
  {
    assert Times64(0xC2B2AE3D27D4EB4F, 0x0BA79078168D4BAF) == 1;
    assert Times64(0x0BA79078168D4BAF, 0xC2B2AE3D27D4EB4F) == 1;
    hide Times64;
    ProductUndone(h, 0xC2B2AE3D27D4EB4F, 0x0BA79078168D4BAF);
    ProductUndone(h, 0x0BA79078168D4BAF, 0xC2B2AE3D27D4EB4F);
  }

  function Times3(h: bv64): bv64 { Times64(h, 0x165667B19E3779F9) }
  function UnTimes3(h: bv64): bv64 { Times64(h, 0xE9E9F4C41D6DF849) }

  lemma Times3Undone(h: bv64)
    ensures UnTimes3(Times3(h)) == h && Times3(UnTimes3(h)) == h
  {
    assert Times64(0x165667B19E3779F9, 0xE9E9F4C41D6DF849) == 1;
    assert Times64(0xE9E9F4C41D6DF849, 0x165667B19E3779F9) == 1;
    hide Times64;
    ProductUndone(h, 0x165667B19E3779F9, 0xE9E9F4C41D6DF849);
    ProductUndone(h, 0xE9E9F4C41D6DF849, 0x165667B19E3779F9);
  }

  function TimesX(h: bv64): bv64 { Times64(h, 0x165667919E3779F9) }
  function UnTimesX(h: bv64): bv64 { Times64(h, 0x08DA8EE41D6DF849) }

  lemma TimesXUndone(h: bv64)
    ensures UnTimesX(TimesX(h)) == h && TimesX(UnTimesX(h)) == h
  {
    assert Times64(0x165667919E3779F9, 0x08DA8EE41D6DF849) == 1;
    assert Times64(0x08DA8EE41D6DF849, 0x165667919E3779F9) == 1;
    hide Times64;
    ProductUndone(h, 0x165667919E3779F9, 0x08DA8EE41D6DF849);
    ProductUndone(h, 0x08DA8EE41D6DF849, 0x165667919E3779F9);
  }

  function Plus32(a: bv32, b: bv32): bv32 { a + b }
  function Minus32(a: bv32, b: bv32): bv32 { a - b }
  function Times32(a: bv32, b: bv32): bv32 { a * b }
  function Xor32(a: bv32, b: bv32): bv32 { a ^ b }

  lemma Xor32Associates(a: bv32, b: bv32, c: bv32)
    ensures Xor32(Xor32(a, b), c) == Xor32(a, Xor32(b, c))
  {
    calc { Xor32(Xor32(a, b), c); Xor32(a ^ b, c); (a ^ b) ^ c; a ^ (b ^ c); Xor32(a, b ^ c); Xor32(a, Xor32(b, c)); }
  }

  lemma Xor32Cancels(a: bv32)
    ensures Xor32(a, a) == 0 && Xor32(a, 0) == a && Xor32(0, a) == a
  {
    calc { Xor32(a, a); a ^ a; 0; }
    calc { Xor32(a, 0); a ^ 0; a; }
    calc { Xor32(0, a); 0 ^ a; a; }
  }

  lemma Meet32(a: bv32, b: bv32)
    ensures Xor32(Xor32(a, b), b) == a
  {
    hide Xor32;
    Xor32Associates(a, b, b);
    Xor32Cancels(b);
    Xor32Cancels(a);
  }

  lemma Bridge32(a: bv32, b: bv32, c: bv32)
    ensures Xor32(Xor32(a, b), Xor32(b, c)) == Xor32(a, c)
  {
    hide Xor32;
    Xor32Associates(Xor32(a, b), b, c);
    Meet32(a, b);
  }

  /** What is left when equal terms meet. */
  lemma Cancel32(a: bv32, b: bv32, c: bv32)
    ensures Xor32(Xor32(a, b), Xor32(b, 0)) == a
    ensures Xor32(Xor32(Xor32(a, b), Xor32(b, c)), Xor32(c, 0)) == a
    ensures Xor32(Xor32(Xor32(a, b), c), Xor32(Xor32(b, c), 0)) == a
  {
    hide Xor32;
    Xor32Cancels(a);
    Bridge32(a, b, 0);
    Bridge32(a, b, c);
    Bridge32(a, c, 0);
    Xor32Associates(a, b, c);
    Bridge32(a, Xor32(b, c), 0);
  }

  function Shr32By15(a: bv32): bv32 { a >> 15 }

  lemma Shr32By15Xor(a: bv32, b: bv32)
    ensures Shr32By15(Xor32(a, b)) == Xor32(Shr32By15(a), Shr32By15(b))
  {
    calc { Shr32By15(Xor32(a, b)); (a ^ b) >> 15; (a >> 15) ^ (b >> 15); Xor32(Shr32By15(a), Shr32By15(b)); }
  }

  function Shr32By30(a: bv32): bv32 { a >> 30 }

  lemma Shr32By30Xor(a: bv32, b: bv32)
    ensures Shr32By30(Xor32(a, b)) == Xor32(Shr32By30(a), Shr32By30(b))
  {
    calc { Shr32By30(Xor32(a, b)); (a ^ b) >> 30; (a >> 30) ^ (b >> 30); Xor32(Shr32By30(a), Shr32By30(b)); }
  }

  lemma Shr32By15Twice(a: bv32)
    ensures Shr32By15(Shr32By15(a)) == Shr32By30(a) && Shr32By15(Shr32By30(a)) == 0 && Shr32By30(Shr32By15(a)) == 0
  {
    calc { Shr32By15(Shr32By15(a)); (a >> 15) >> 15; a >> 30; Shr32By30(a); }
    calc { Shr32By15(Shr32By30(a)); (a >> 30) >> 15; 0; }
    calc { Shr32By30(Shr32By15(a)); (a >> 15) >> 30; 0; }
  }

  function Word15(h: bv32): bv32 { Xor32(h, Shr32By15(h)) }
  function UnWord15(h: bv32): bv32 { Xor32(Xor32(h, Shr32By15(h)), Shr32By30(h)) }

  lemma Word15Undone(h: bv32)
    ensures UnWord15(Word15(h)) == h && Word15(UnWord15(h)) == h
  {
    hide Xor32, Shr32By15, Shr32By30;
    Shr32By15Twice(h);
    Shr32By15Xor(h, Shr32By15(h));
    Shr32By30Xor(h, Shr32By15(h));
    Shr32By15Xor(Xor32(h, Shr32By15(h)), Shr32By30(h));
    Cancel32(h, Shr32By15(h), Shr32By30(h));
  }

  function Shr32By13(a: bv32): bv32 { a >> 13 }

  lemma Shr32By13Xor(a: bv32, b: bv32)
    ensures Shr32By13(Xor32(a, b)) == Xor32(Shr32By13(a), Shr32By13(b))
  {
    calc { Shr32By13(Xor32(a, b)); (a ^ b) >> 13; (a >> 13) ^ (b >> 13); Xor32(Shr32By13(a), Shr32By13(b)); }
  }

  function Shr32By26(a: bv32): bv32 { a >> 26 }

  lemma Shr32By26Xor(a: bv32, b: bv32)
    ensures Shr32By26(Xor32(a, b)) == Xor32(Shr32By26(a), Shr32By26(b))
  {
    calc { Shr32By26(Xor32(a, b)); (a ^ b) >> 26; (a >> 26) ^ (b >> 26); Xor32(Shr32By26(a), Shr32By26(b)); }
  }

  lemma Shr32By13Twice(a: bv32)
    ensures Shr32By13(Shr32By13(a)) == Shr32By26(a) && Shr32By13(Shr32By26(a)) == 0 && Shr32By26(Shr32By13(a)) == 0
  {
    calc { Shr32By13(Shr32By13(a)); (a >> 13) >> 13; a >> 26; Shr32By26(a); }
    calc { Shr32By13(Shr32By26(a)); (a >> 26) >> 13; 0; }
    calc { Shr32By26(Shr32By13(a)); (a >> 13) >> 26; 0; }
  }

  function Word13(h: bv32): bv32 { Xor32(h, Shr32By13(h)) }
  function UnWord13(h: bv32): bv32 { Xor32(Xor32(h, Shr32By13(h)), Shr32By26(h)) }

  lemma Word13Undone(h: bv32)
    ensures UnWord13(Word13(h)) == h && Word13(UnWord13(h)) == h
  {
    hide Xor32, Shr32By13, Shr32By26;
    Shr32By13Twice(h);
    Shr32By13Xor(h, Shr32By13(h));
    Shr32By26Xor(h, Shr32By13(h));
    Shr32By13Xor(Xor32(h, Shr32By13(h)), Shr32By26(h));
    Cancel32(h, Shr32By13(h), Shr32By26(h));
  }

  function Shr32By16(a: bv32): bv32 { a >> 16 }

  lemma Shr32By16Xor(a: bv32, b: bv32)
    ensures Shr32By16(Xor32(a, b)) == Xor32(Shr32By16(a), Shr32By16(b))
  {
    calc { Shr32By16(Xor32(a, b)); (a ^ b) >> 16; (a >> 16) ^ (b >> 16); Xor32(Shr32By16(a), Shr32By16(b)); }
  }

  lemma Shr32By16Twice(a: bv32)
    ensures Shr32By16(Shr32By16(a)) == 0
  {
    calc { Shr32By16(Shr32By16(a)); (a >> 16) >> 16; 0; }
  }

  function Word16(h: bv32): bv32 { Xor32(h, Shr32By16(h)) }

  lemma Word16Undone(h: bv32)
    ensures Word16(Word16(h)) == h
  {
    hide Xor32, Shr32By16;
    Shr32By16Xor(h, Shr32By16(h));
    Shr32By16Twice(h);
    Cancel32(h, Shr32By16(h), 0);
  }

  function Word2(h: bv32): bv32 { h * 0x85EBCA77 }
  function UnWord2(h: bv32): bv32 { h * 0xB6C92F47 }

  lemma Word2Undone(h: bv32)
    ensures UnWord2(Word2(h)) == h && Word2(UnWord2(h)) == h
  {
    calc { UnWord2(Word2(h)); UnWord2(h * 0x85EBCA77); h; }
    calc { Word2(UnWord2(h)); Word2(h * 0xB6C92F47); h; }
  }

  function Word3(h: bv32): bv32 { h * 0xC2B2AE3D }
  function UnWord3(h: bv32): bv32 { h * 0xA89ED915 }

  lemma Word3Undone(h: bv32)
    ensures UnWord3(Word3(h)) == h && Word3(UnWord3(h)) == h
  {
    calc { UnWord3(Word3(h)); UnWord3(h * 0xC2B2AE3D); h; }
    calc { Word3(UnWord3(h)); Word3(h * 0xA89ED915); h; }
  }
}

/**
 The constant cache of an IR function (src/co/ir/constcache.c): a 32-bit map of the types present and,
 for each of them, in the order of the types, a branch from values to constants. A branch, a red-black
 tree in the source, is a map here; RBSet and RBGet are its update and lookup.
 */
module ConstCache {
  import opened Base

  type u64 = bv64
  type Const = nat                            // an IRValue
  type Branch = map<u64, Const>

  /** A numeric type, by its code. The source asserts that there are at most 32. */
  type TypeCode = t: bv32 | t < 32

  // ---------- the bitmap

  predicate Bit(b: bv32, i: bv32)
    requires i < 32
  {
    (b >> i) & 1 == 1
  }

  /** 1 << t */
  function Bitpos(t: TypeCode): bv32 {
    1 << t
  }

  /** How many bits below n are set. */
  function Rank(b: bv32, n: bv32): nat
    requires n <= 32
    decreases n
  {
    if n == 0 then 0 else Rank(b, n - 1) + (if Bit(b, n - 1) then 1 else 0)
  }

  function Popcount(b: bv32): nat {
    Rank(b, 32)
  }

  /** branchesLen */
  function BranchesLen(bmap: bv32): nat {
    Popcount(bmap)
  }

  /** bitindex */
  function Bitindex(bmap: bv32, bitpos: bv32): nat {
    Popcount(bmap & (bitpos - 1))
  }

  /** b with the bit of t set. */
  function WithBit(b: bv32, t: TypeCode): bv32 {
    b | Bitpos(t)
  }

  lemma MaskedBit(b: bv32, t: TypeCode, i: bv32)
    requires i < 32
    ensures Bit(b & (Bitpos(t) - 1), i) <==> i < t && Bit(b, i)
  {
  }

  lemma SetBit(b: bv32, t: TypeCode, i: bv32)
    requires i < 32
    ensures Bit(WithBit(b, t), i) <==> i == t || Bit(b, i)
  {
  }

  lemma TestBit(b: bv32, t: TypeCode)
    ensures b & Bitpos(t) != 0 <==> Bit(b, t)
  {
  }

  lemma OneBit(t: TypeCode, i: bv32)
    requires i < 32
    ensures Bit(Bitpos(t), i) <==> i == t
  {
  }

  lemma {:induction false} MaskedRank(b: bv32, t: TypeCode, n: bv32)
    requires n <= 32
    ensures Rank(b & (Bitpos(t) - 1), n) == Rank(b, if n < t then n else t)
    decreases n
  {
    hide Bit, Bitpos, WithBit;
    if n > 0 {
      MaskedRank(b, t, n - 1);
      MaskedBit(b, t, n - 1);
    }
  }

  /** bitindex counts the types below t. */
  lemma BitindexIsRank(b: bv32, t: TypeCode)
    ensures Bitindex(b, Bitpos(t)) == Rank(b, t)
  {
    hide Bit, Bitpos, WithBit, Rank;
    MaskedRank(b, t, 32);
  }

  /** The rank grows with every bit set: types in order get branches in order. */
  lemma {:induction false} RankGrows(b: bv32, i: bv32, j: bv32)
    requires i < j <= 32
    ensures Rank(b, i) + (if Bit(b, i) then 1 else 0) <= Rank(b, j)
    decreases j
  {
    hide Bit;
    if i < j - 1 { RankGrows(b, i, j - 1); }
  }

  /** Every branch number belongs to a type that is present. */
  lemma {:induction false} Select(b: bv32, n: bv32, k: nat) returns (i: bv32)
    requires n <= 32 && k < Rank(b, n)
    ensures i < n && Bit(b, i) && Rank(b, i) == k
    decreases n
  {
    hide Bit;
    if k < Rank(b, n - 1) { i := Select(b, n - 1, k); } else { i := n - 1; }
  }

  /** bitindex is a bijection, in order, from the types present to the branches. */
  lemma RankBijection(b: bv32, t: TypeCode, u: TypeCode, k: nat) returns (w: bv32)
    requires Bit(b, t) && Bit(b, u) && k < BranchesLen(b)
    ensures Bitindex(b, Bitpos(t)) < BranchesLen(b)
    ensures Bitindex(b, Bitpos(t)) < Bitindex(b, Bitpos(u)) <==> t < u
    ensures w < 32 && Bit(b, w) && Bitindex(b, Bitpos(w)) == k
  {
    hide Bit, Bitpos, WithBit, Bitindex;
    BitindexIsRank(b, t);
    BitindexIsRank(b, u);
    RankGrows(b, t, 32);
    if t < u { RankGrows(b, t, u); }
    if u < t { RankGrows(b, u, t); }
    w := Select(b, 32, k);
    BitindexIsRank(b, w);
  }

  lemma {:induction false} RankWith(b: bv32, t: TypeCode, n: bv32)
    requires n <= 32 && !Bit(b, t)
    ensures Rank(WithBit(b, t), n) == Rank(b, n) + (if n > t then 1 else 0)
    decreases n
  {
    hide Bit, Bitpos, WithBit;
    if n > 0 {
      RankWith(b, t, n - 1);
      SetBit(b, t, n - 1);
    }
  }

  lemma {:induction false} RankOne(t: TypeCode, n: bv32)
    requires n <= 32
    ensures Rank(Bitpos(t), n) == if n > t then 1 else 0
    decreases n
  {
    hide Bit, Bitpos, WithBit;
    if n > 0 {
      RankOne(t, n - 1);
      OneBit(t, n - 1);
    }
  }

  // ---------- what a cache stands for

  datatype Key = Key(t: TypeCode, value: u64)

  function Lookup<K, V>(m: map<K, V>, k: K): Option<V> {
    if k in m then Some(m[k]) else None
  }

  function RBSet(b: Branch, value: u64, c: Const): Branch {
    b[value := c]
  }

  function Find(bmap: bv32, branches: seq<Branch>, k: Key): Option<Const>
    requires |branches| == Popcount(bmap)
  {
    if Bit(bmap, k.t) then
      RankGrows(bmap, k.t, 32);
      Lookup(branches[Rank(bmap, k.t)], k.value)
    else None
  }

  ghost predicate Represents(bmap: bv32, branches: seq<Branch>, m: map<Key, Const>) {
    |branches| == Popcount(bmap) && forall k: Key :: Find(bmap, branches, k) == Lookup(m, k)
  }

  lemma FirstBranch(k: Key, c: Const)
    ensures Represents(Bitpos(k.t), [map[k.value := c]], map[k := c])
  {
    hide Bit, Bitpos, WithBit;
    RankOne(k.t, 32);
    forall j: Key ensures Find(Bitpos(k.t), [map[k.value := c]], j) == Lookup(map[k := c], j) {
      OneBit(k.t, j.t);
      RankOne(k.t, j.t);
    }
  }

  /** The branches with one more, for type t. */
  function Inserted(bmap: bv32, branches: seq<Branch>, t: TypeCode, b: Branch): seq<Branch>
    requires Rank(bmap, t) <= |branches|
  {
    branches[..Rank(bmap, t)] + [b] + branches[Rank(bmap, t)..]
  }

  lemma InsertedLength(bmap: bv32, branches: seq<Branch>, t: TypeCode, b: Branch)
    requires Rank(bmap, t) <= |branches|
    ensures |Inserted(bmap, branches, t, b)| == |branches| + 1
  {
  }

  /** After the insertion the new type finds its branch. */
  lemma NewBranchOwn(bmap: bv32, branches: seq<Branch>, k: Key, b: Branch)
    requires |branches| == Popcount(bmap) && !Bit(bmap, k.t) && Rank(bmap, k.t) <= |branches|
    requires |branches| + 1 == Popcount(WithBit(bmap, k.t))
    ensures Find(WithBit(bmap, k.t), Inserted(bmap, branches, k.t, b), k) == Lookup(b, k.value)
  {
    hide Bit, Bitpos, WithBit, Rank, Inserted, Find, Popcount;
    SetBit(bmap, k.t, k.t);
    RankShift(bmap, k.t, k.t);
    InsertedAt(bmap, branches, k.t, b, Rank(bmap, k.t));
    FindThere(WithBit(bmap, k.t), Inserted(bmap, branches, k.t, b), k);
  }

  /** And the other types find what they found before. */
  lemma NewBranchOther(bmap: bv32, branches: seq<Branch>, t: TypeCode, b: Branch, j: Key)
    requires |branches| == Popcount(bmap) && !Bit(bmap, t) && Rank(bmap, t) <= |branches|
    requires |branches| + 1 == Popcount(WithBit(bmap, t)) && j.t != t
    ensures Find(WithBit(bmap, t), Inserted(bmap, branches, t, b), j) == Find(bmap, branches, j)
  {
    hide Bit, Bitpos, WithBit, Rank, Inserted, Find, Popcount;
    var b2, br2 := WithBit(bmap, t), Inserted(bmap, branches, t, b);
    SetBit(bmap, t, j.t);
    InsertedLength(bmap, branches, t, b);
    if Bit(bmap, j.t) {
      RankShift(bmap, t, j.t);
      FindThere(b2, br2, j);
      FindThere(bmap, branches, j);
      InsertedAt(bmap, branches, t, b, Rank(b2, j.t));
    } else {
      FindAbsent(b2, br2, j);
      FindAbsent(bmap, branches, j);
    }
  }

  lemma FindThere(bmap: bv32, branches: seq<Branch>, k: Key)
    requires |branches| == Popcount(bmap) && Bit(bmap, k.t)
    ensures Rank(bmap, k.t) < |branches| && Find(bmap, branches, k) == Lookup(branches[Rank(bmap, k.t)], k.value)
  {
    RankGrows(bmap, k.t, 32);
  }

  lemma FindAbsent(bmap: bv32, branches: seq<Branch>, k: Key)
    requires |branches| == Popcount(bmap) && !Bit(bmap, k.t)
    ensures Find(bmap, branches, k) == None
  {
  }

  /** What a new type does to the branch numbers: those of later types grow by one. */
  lemma RankShift(bmap: bv32, t: TypeCode, u: TypeCode)
    requires !Bit(bmap, t)
    ensures var r, q, q2 := Rank(bmap, t), Rank(bmap, u), Rank(WithBit(bmap, t), u);
      && (u == t ==> q2 == r)
      && (u != t && Bit(bmap, u) ==> q < Popcount(bmap) && if q < r then q2 == q else q2 == q + 1)
  {
    hide Bit, Bitpos, WithBit, Rank;
    RankWith(bmap, t, u);
    if u < t { RankGrows(bmap, u, t); }
    if t < u { RankGrows(bmap, t, u); }
    RankGrows(bmap, u, 32);
  }

  lemma InsertedAt(bmap: bv32, branches: seq<Branch>, t: TypeCode, b: Branch, i: nat)
    requires Rank(bmap, t) <= |branches| && i <= |branches|
    ensures |Inserted(bmap, branches, t, b)| == |branches| + 1
    ensures Inserted(bmap, branches, t, b)[i]
         == if i < Rank(bmap, t) then branches[i] else if i == Rank(bmap, t) then b else branches[i - 1]
  {
    hide Rank;
  }

  /** A branch for a type not present goes in at the type's rank and shifts the later ones. */
  lemma NewBranch(bmap: bv32, branches: seq<Branch>, m: map<Key, Const>, k: Key, c: Const)
    requires Represents(bmap, branches, m) && !Bit(bmap, k.t)
    ensures Rank(bmap, k.t) <= |branches|
    ensures Represents(WithBit(bmap, k.t), Inserted(bmap, branches, k.t, map[k.value := c]), m[k := c])
  {
    RankGrows(bmap, k.t, 32);
    RankWith(bmap, k.t, 32);
    hide Bit, Bitpos, WithBit, Rank, Find, Inserted;
    var b2, br2 := WithBit(bmap, k.t), Inserted(bmap, branches, k.t, map[k.value := c]);
    assert |br2| == |branches| + 1 by { InsertedLength(bmap, branches, k.t, map[k.value := c]); }
    forall j: Key ensures Find(b2, br2, j) == Lookup(m[k := c], j) {
      assert Find(bmap, branches, j) == Lookup(m, j);
      if j.t == k.t {
        FindAbsent(bmap, branches, j);
        NewBranchOwn(bmap, branches, j, map[k.value := c]);
      } else {
        NewBranchOther(bmap, branches, k.t, map[k.value := c], j);
      }
    }
  }

  /** The branches with one more value for type t. */
  function Updated(bmap: bv32, branches: seq<Branch>, k: Key, c: Const): seq<Branch>
    requires Rank(bmap, k.t) < |branches|
  {
    branches[Rank(bmap, k.t) := RBSet(branches[Rank(bmap, k.t)], k.value, c)]
  }

  lemma OldBranchAt(bmap: bv32, branches: seq<Branch>, k: Key, c: Const, j: Key)
    requires |branches| == Popcount(bmap) && Bit(bmap, k.t) && Rank(bmap, k.t) < |branches|
    ensures Find(bmap, Updated(bmap, branches, k, c), j) == if j == k then Some(c) else Find(bmap, branches, j)
  {
    hide Bit, Rank;
    if Bit(bmap, j.t) {
      RankGrows(bmap, j.t, 32);
      if j.t < k.t { RankGrows(bmap, j.t, k.t); }
      if k.t < j.t { RankGrows(bmap, k.t, j.t); }
    }
  }

  /** A value for a type present changes that type's branch only. */
  lemma OldBranch(bmap: bv32, branches: seq<Branch>, m: map<Key, Const>, k: Key, c: Const)
    requires Represents(bmap, branches, m) && Bit(bmap, k.t)
    ensures Rank(bmap, k.t) < |branches|
    ensures Represents(bmap, Updated(bmap, branches, k, c), m[k := c])
  {
    RankGrows(bmap, k.t, 32);
    hide Bit, Rank, Find;
    var br2 := Updated(bmap, branches, k, c);
    forall j: Key ensures Find(bmap, br2, j) == Lookup(m[k := c], j) {
      assert Find(bmap, branches, j) == Lookup(m, j);
      OldBranchAt(bmap, branches, k, c, j);
    }
  }

  // ---------- the cache

  /** IRConstCache */
  class Cache {
    var bmap: bv32
    const branches: array<Branch>

    constructor (bmap: bv32, branches: array<Branch>)
      ensures this.bmap == bmap && this.branches == branches
    {
      this.bmap := bmap;
      this.branches := branches;
    }
  }

  /** Cache c, or NULL, holds exactly the constants of m. */
  ghost predicate Holds(c: Cache?, m: map<Key, Const>)
    reads c, if c == null then {} else {c.branches}
  {
    if c == null then m == map[] else Represents(c.bmap, c.branches[..], m)
  }

  /** The hint for type t: the number of its branch plus one, or 0 without one. */
  ghost function Hint(c: Cache?, t: TypeCode): nat
    reads c
  {
    if c != null && Bit(c.bmap, t) then Rank(c.bmap, t) + 1 else 0
  }

  /** IRConstCacheGet */
  method Get(c: Cache?, k: Key, ghost m: map<Key, Const>) returns (v: Option<Const>, addHint: nat)
    requires Holds(c, m)
    ensures v == Lookup(m, k) && addHint == Hint(c, k.t)
  {
    hide Bit, Bitpos, WithBit;
    if c != null {
      assert Find(c.bmap, c.branches[..], k) == Lookup(m, k);
      TestBit(c.bmap, k.t);
      var bitpos := Bitpos(k.t);
      if c.bmap & bitpos != 0 {
        BitindexIsRank(c.bmap, k.t);
        RankGrows(c.bmap, k.t, 32);
        var bi := Bitindex(c.bmap, bitpos);
        var branch := c.branches[bi];
        return Lookup(branch, k.value), bi + 1;
      }
    }
    return None, 0;
  }

  /**
   IRConstCacheAdd, in all its cases. A hint must be what Get gave for this type and the cache as it is;
   then it makes no difference to the result.
   */
  method Add(c: Cache?, k: Key, v: Const, addHint: nat, ghost m: map<Key, Const>) returns (r: Cache)
    requires Holds(c, m)
    requires addHint == 0 || addHint == Hint(c, k.t)
    modifies if c == null then {} else {c.branches}
    ensures Holds(r, m[k := v])
    ensures r == c || (fresh(r) && fresh(r.branches))
    ensures r == c <==> c != null && Bit(c.bmap, k.t)
  {
    hide Bit, Bitpos, WithBit, Rank, Represents, Holds;
    if c == null {
      assert m == map[] by { EmptyHolds(m); }
      r := First(k, v);
    } else if addHint > 0 {
      r := c;
      SetValue(c, addHint - 1, k, v, m);
    } else {
      r := AddFound(c, k, v, m);
    }
  }

  lemma EmptyHolds(m: map<Key, Const>)
    requires Holds(null, m)
    ensures m == map[]
  {
  }

  /** Cases B and C of IRConstCacheAdd, without a hint. */
  method AddFound(c: Cache, k: Key, v: Const, ghost m: map<Key, Const>) returns (r: Cache)
    requires Holds(c, m)
    modifies c.branches
    ensures Holds(r, m[k := v])
    ensures if Bit(c.bmap, k.t) then r == c else fresh(r) && fresh(r.branches)
  {
    hide Bit, Bitpos, WithBit, Rank, Represents, Holds;
    var bitpos := Bitpos(k.t);
    BitindexIsRank(c.bmap, k.t);
    TestBit(c.bmap, k.t);
    var bi := Bitindex(c.bmap, bitpos);
    if c.bmap & bitpos == 0 {
      r := AddType(c, bi, k, v, m);
    } else {
      r := c;
      SetValue(c, bi, k, v, m);
    }
  }

  /** Case A of IRConstCacheAdd. */
  method First(k: Key, v: Const) returns (r: Cache)
    ensures fresh(r) && fresh(r.branches) && Holds(r, map[k := v])
  {
    var branches := new Branch[1](_ => map[k.value := v]);
    FirstBranch(k, v);
    hide Represents;
    r := new Cache(Bitpos(k.t), branches);
    assert r.branches[..] == [map[k.value := v]];
  }

  /** Case B of IRConstCacheAdd: copy into an array with one more slot. */
  method AddType(c: Cache, bi: nat, k: Key, v: Const, ghost m: map<Key, Const>) returns (r: Cache)
    requires Holds(c, m) && !Bit(c.bmap, k.t) && bi == Rank(c.bmap, k.t)
    ensures fresh(r) && fresh(r.branches) && Holds(r, m[k := v])
  {
    NewBranch(c.bmap, c.branches[..], m, k, v);
    assert BranchesLen(c.bmap) == c.branches.Length;
    hide Bit, Bitpos, WithBit, Rank, Represents;
    var dst := CopyWith(c.branches, bi, map[k.value := v]);
    r := new Cache(WithBit(c.bmap, k.t), dst);
  }

  /** The two memcpys around the new slot. */
  method CopyWith(src: array<Branch>, bi: nat, b: Branch) returns (dst: array<Branch>)
    requires bi <= src.Length
    ensures fresh(dst) && dst[..] == src[..bi] + [b] + src[bi..]
  {
    dst := new Branch[src.Length + 1](_ => b);
    forall i | 0 <= i < bi { dst[i] := src[i]; }
    forall i | bi <= i < src.Length { dst[i + 1] := src[i]; }
  }

  /** Case C of IRConstCacheAdd, and the case of a hint. */
  method SetValue(c: Cache, bi: nat, k: Key, v: Const, ghost m: map<Key, Const>)
    requires Holds(c, m) && Bit(c.bmap, k.t) && bi == Rank(c.bmap, k.t)
    modifies c.branches
    ensures Holds(c, m[k := v])
  {
    OldBranch(c.bmap, c.branches[..], m, k, v);
    hide Represents, Rank, Bit;
    ghost var next := Updated(c.bmap, c.branches[..], k, v);
    c.branches[bi] := RBSet(c.branches[bi], k.value, v);
    assert c.branches[..] == next;
  }

  lemma HintMisses(bmap: bv32, branches: seq<Branch>, m: map<Key, Const>, k: Key, v: Const, h: nat)
    requires Represents(bmap, branches, m) && k !in m && h < |branches|
    requires !Bit(bmap, k.t) || h != Rank(bmap, k.t)
    ensures !Represents(bmap, branches[h := RBSet(branches[h], k.value, v)], m[k := v])
  {
    assert Find(bmap, branches, k) == Lookup(m, k);
    var br2 := branches[h := RBSet(branches[h], k.value, v)];
    hide Bit, Rank, Find, Popcount;
    if Bit(bmap, k.t) {
      FindThere(bmap, branches, k);
      FindThere(bmap, br2, k);
    } else {
      FindAbsent(bmap, br2, k);
    }
    assert Find(bmap, br2, k) != Lookup(m[k := v], k);
  }

  /**
   A hint h for a constant not yet in the cache works if and only if its type is present and h is the
   number of that type's branch plus one: the hint the Get just before has given, if it was not 0.
   */
  lemma HintExact(bmap: bv32, branches: seq<Branch>, m: map<Key, Const>, k: Key, v: Const, h: nat)
    requires Represents(bmap, branches, m) && k !in m && 0 < h <= |branches|
    ensures Represents(bmap, branches[h - 1 := RBSet(branches[h - 1], k.value, v)], m[k := v])
       <==> Bit(bmap, k.t) && h == Rank(bmap, k.t) + 1
  {
    hide Bit, Rank, Represents;
    if Bit(bmap, k.t) && h == Rank(bmap, k.t) + 1 {
      OldBranch(bmap, branches, m, k, v);
    } else {
      HintMisses(bmap, branches, m, k, v, h - 1);
    }
  }

  /** So a stale hint can put the value under another type: that of type 4, from before type 2 was added. */
  lemma StaleHint(v: Const, w: Const, x: Const)
    ensures var k2, k4 := Key(2, 7), Key(4, 8);
      var bmap, branches := WithBit(Bitpos(4), 2), [map[7 := w], map[7 := v]];
      && Represents(bmap, branches, map[k2 := w, Key(4, 7) := v])
      && Rank(Bitpos(4), 4) + 1 == 1
      && !Represents(bmap, branches[0 := RBSet(branches[0], 8, x)], map[k2 := w, Key(4, 7) := v][k4 := x])
  {
    var k2, k4 := Key(2, 7), Key(4, 7);
    FirstBranch(k4, v);
    RankOne(4, 2);
    RankOne(4, 4);
    OneBit(4, 2);
    NewBranch(Bitpos(4), [map[7 := v]], map[k4 := v], k2, w);
    RankWith(Bitpos(4), 2, 4);
    hide Rank, Represents, Bit, Bitpos, WithBit;
    var bmap, branches := WithBit(Bitpos(4), 2), [map[7 := w], map[7 := v]];
    assert Inserted(Bitpos(4), [map[7 := v]], 2, map[7 := w]) == branches;
    assert map[k4 := v][k2 := w] == map[k2 := w, k4 := v];
    HintExact(bmap, branches, map[k2 := w, k4 := v], Key(4, 8), x, 1);
  }

  // ---------- the function that owns the cache

  /** An operation of the entry block: a constant of a type, with its value. */
  datatype Value = Value(id: Const, t: TypeCode, auxInt: u64)

  function KeyOf(v: Value): Key {
    Key(v.t, v.auxInt)
  }

  /** The constants of the entry block are the cached ones. */
  ghost predicate Agree(entry: seq<Value>, known: map<Key, Const>, nextId: nat) {
    && (forall i :: 0 <= i < |entry| ==> entry[i].id < nextId && Lookup(known, KeyOf(entry[i])) == Some(entry[i].id))
    && (forall i, j :: 0 <= i < j < |entry| ==> entry[i].id != entry[j].id)
    && (forall k: Key :: k in known ==> Value(known[k], k.t, k.value) in entry)
  }

  /** There are never two constants of one type and value. */
  lemma OneConstantEach(entry: seq<Value>, known: map<Key, Const>, nextId: nat, i: nat, j: nat)
    requires Agree(entry, known, nextId) && i < j < |entry|
    ensures KeyOf(entry[i]) != KeyOf(entry[j])
  {
    assert Lookup(known, KeyOf(entry[i])) == Some(entry[i].id);
    assert Lookup(known, KeyOf(entry[j])) == Some(entry[j].id);
  }

  lemma AgreeMore(entry: seq<Value>, known: map<Key, Const>, nextId: nat, k: Key)
    requires Agree(entry, known, nextId) && k !in known
    ensures Agree(entry + [Value(nextId, k.t, k.value)], known[k := nextId], nextId + 1)
  {
    var more := entry + [Value(nextId, k.t, k.value)];
    forall i | 0 <= i < |more| ensures Lookup(known[k := nextId], KeyOf(more[i])) == Some(more[i].id) {
      if i < |entry| { assert Lookup(known, KeyOf(entry[i])) == Some(entry[i].id); }
    }
    forall j: Key | j in known[k := nextId] ensures Value(known[k := nextId][j], j.t, j.value) in more {
      if j == k { assert more[|entry|] == Value(nextId, k.t, k.value); }
    }
  }

  lemma NotYet(entry: seq<Value>, known: map<Key, Const>, nextId: nat, k: Key)
    requires Agree(entry, known, nextId) && k !in known
    ensures !exists v :: v in entry && KeyOf(v) == k
  {
  }

  lemma Already(entry: seq<Value>, known: map<Key, Const>, nextId: nat, k: Key)
    requires Agree(entry, known, nextId) && k in known
    ensures Value(known[k], k.t, k.value) in entry
    ensures exists v :: v in entry && KeyOf(v) == k
  {
    assert KeyOf(Value(known[k], k.t, k.value)) == k;
  }

  /** IRFun, as far as constants go. */
  class Fun {
    var consts: Cache?
    var entry: seq<Value>
    var nextId: nat
    ghost var known: map<Key, Const>

    ghost predicate Valid()
      reads this, consts, if consts == null then {} else {consts.branches}
    {
      Holds(consts, known) && Agree(entry, known, nextId)
    }

    constructor ()
      ensures Valid() && entry == []
    {
      consts, entry, nextId, known := null, [], 0, map[];
    }

    /** getConst64: the constant of this type and value, made on first use. */
    method GetConst64(t: TypeCode, value: u64) returns (id: Const)
      requires Valid()
      modifies this, if consts == null then {} else {consts.branches}
      ensures Valid() && Value(id, t, value) in entry
      ensures entry == if exists v :: v in old(entry) && KeyOf(v) == Key(t, value) then old(entry)
                       else old(entry) + [Value(id, t, value)]
    {
      hide Holds, Agree;
      var k := Key(t, value);
      var v, addHint := Get(consts, k, known);
      if v.Some? {
        id := v.value;
        Already(entry, known, nextId, k);
        return;
      }
      id := nextId;
      AgreeMore(entry, known, nextId, k);
      NotYet(entry, known, nextId, k);
      consts := Add(consts, k, id, addHint, known);
      Append(Value(id, t, value));
      known := known[k := id];
    }

    /** IRValueNew: a new operation at the end of the entry block. */
    method Append(v: Value)
      modifies this`entry, this`nextId
      ensures entry == old(entry) + [v] && v in entry && nextId == old(nextId) + 1
    {
      entry := entry + [v];
      nextId := nextId + 1;
      assert entry[|entry| - 1] == v;
    }
  }
}

/**
 The caches of dead tasks of all Ps together with the global list, over any run of p_tfree_get,
 p_tfree_put and p_tfree_purge. The three functions are what module FreeTasks proves the operations
 on the linked lists to do.
 */
module FreeRuns {
  import opened Base

  /** p_tfree_get on a P's list and the global one: both lists afterwards and the task. */
  function Got<X>(own: seq<X>, g: seq<X>): (seq<X>, seq<X>, Option<X>) {
    var k := if own != [] then 0 else if |g| < 32 then |g| else 32;
    var own1 := if own != [] then own else Reversed(g[..k]);
    if own1 == [] then ([], g[k..], None) else (own1[1..], g[k..], Some(own1[0]))
  }

  /** p_tfree_put */
  function Put<X>(own: seq<X>, g: seq<X>, t: X): (seq<X>, seq<X>) {
    var all := [t] + own;
    if |all| < 64 then (all, g) else (all[|all| - 31..], Reversed(all[..|all| - 31]) + g)
  }

  lemma PutIs<X>(own: seq<X>, g: seq<X>, t: X, all: seq<X>, n: nat)
    requires all == [t] + own && n == if |all| < 64 then 0 else |all| - 31
    ensures Put(own, g, t) == if |all| < 64 then (all, g) else (all[n..], Reversed(all[..n]) + g)
  {
  }

  /** p_tfree_purge */
  function Purged<X>(own: seq<X>, g: seq<X>): (seq<X>, seq<X>) {
    ([], Reversed(own) + g)
  }

  lemma {:induction false} MirroredCounts<X>(a: seq<X>)
    ensures multiset(Reversed(a)) == multiset(a)
  {
    if a == [] {
    } else {
      var n := |a| - 1;
      MirroredCounts(a[..n]);
      assert Reversed(a) == [a[n]] + Reversed(a[..n]);
      assert a == a[..n] + [a[n]];
    }
  }

  /** A batch given to the global list is neither lost nor doubled. */
  lemma BatchConserves<X>(own: seq<X>, n: nat, g: seq<X>)
    requires n <= |own|
    ensures multiset(own[n..]) + multiset(Reversed(own[..n]) + g) == multiset(own) + multiset(g)
  {
    MirroredCounts(own[..n]);
    assert own == own[..n] + own[n..];
  }

  function Taken<X>(t: Option<X>): multiset<X> {
    if t.Some? then multiset{t.value} else multiset{}
  }

  lemma GotConserves<X>(own: seq<X>, g: seq<X>)
    ensures var (own2, g2, t) := Got(own, g);
      && multiset(own2) + multiset(g2) + Taken(t) == multiset(own) + multiset(g)
      && |own2| <= if own == [] then 31 else |own| - 1
  {
    var k := if own != [] then 0 else if |g| < 32 then |g| else 32;
    var own1 := if own != [] then own else Reversed(g[..k]);
    MirroredCounts(g[..k]);
    assert g == g[..k] + g[k..];
    if own1 != [] { assert own1 == [own1[0]] + own1[1..]; }
  }

  /**
   p_tfree_get finds a task if there is one anywhere; only with none of its own does the P take from the global
   list, its first 32 tasks or all there are, of which it uses the last and keeps the others, the later first.
   */
  lemma GotRefills<X>(own: seq<X>, g: seq<X>)
    ensures var (own2, g2, t) := Got(own, g);
      && (t.None? <==> own == [] && g == [])
      && (own != [] ==> t == Some(own[0]) && own2 == own[1..] && g2 == g)
      && (own == [] && g != [] ==>
            exists k :: 0 < k <= |g| && (k == 32 || (k < 32 && k == |g|)) && t == Some(g[k - 1]) && g2 == g[k..]
                        && |own2| == k - 1 && forall i :: 0 <= i < k - 1 ==> own2[i] == g[k - 2 - i])
  {
    if own == [] && g != [] {
      var k := if |g| < 32 then |g| else 32;
      assert Got(own, g).1 == g[k..] && Got(own, g).2 == Some(Reversed(g[..k])[0]);
      assert forall i :: 0 <= i < k - 1 ==> Got(own, g).0[i] == Reversed(g[..k])[i + 1];
    }
  }

  /** p_tfree_put keeps up to 63 tasks; the 64th sends 33 to the global list, itself the last of them. */
  lemma PutSpills<X>(own: seq<X>, g: seq<X>, t: X)
    ensures |own| < 63 ==> Put(own, g, t) == ([t] + own, g)
    ensures |own| == 63 ==>
      var (own2, g2) := Put(own, g, t);
      && own2 == own[32..] && |g2| == |g| + 33 && g2[32] == t && g2[33..] == g
      && forall i :: 0 <= i < 32 ==> g2[i] == own[31 - i]
  {
    if |own| == 63 {
      var all := [t] + own;
      assert all[33..] == own[32..];
      assert forall i :: 0 <= i < 33 ==> (Reversed(all[..33]) + g)[i] == all[32 - i];
    }
  }

  lemma PutConserves<X>(own: seq<X>, g: seq<X>, t: X)
    ensures var (own2, g2) := Put(own, g, t);
      multiset(own2) + multiset(g2) == multiset(own) + multiset(g) + multiset{t} && |own2| <= 63
  {
    var all := [t] + own;
    if |all| >= 64 { BatchConserves(all, |all| - 31, g); }
  }

  lemma PurgeConserves<X>(own: seq<X>, g: seq<X>)
    ensures var (own2, g2) := Purged(own, g); multiset(own2) + multiset(g2) == multiset(own) + multiset(g)
  {
    MirroredCounts(own);
  }

  // ---------- all the Ps

  /** The local lists, the global list, and the tasks that are in use. */
  datatype Frees<X> = Frees(own: seq<seq<X>>, g: seq<X>, used: multiset<X>)

  datatype Op<X> = GetOp(p: nat) | PutOp(p: nat, t: X) | PurgeOp(p: nat)

  /** One operation by some P; only a task in use can be put. */
  function Step<X>(s: Frees<X>, op: Op<X>): Frees<X> {
    if op.p >= |s.own| then s
    else
      match op
      case GetOp(p) =>
        var (own2, g2, t) := Got(s.own[p], s.g);
        Frees(s.own[p := own2], g2, s.used + Taken(t))
      case PutOp(p, t) =>
        if t !in s.used then s
        else
          var (own2, g2) := Put(s.own[p], s.g, t);
          Frees(s.own[p := own2], g2, s.used - multiset{t})
      case PurgeOp(p) =>
        var (own2, g2) := Purged(s.own[p], s.g);
        Frees(s.own[p := own2], g2, s.used)
  }

  function Run<X>(s: Frees<X>, ops: seq<Op<X>>): Frees<X> {
    if ops == [] then s else Step(Run(s, ops[..|ops| - 1]), ops[|ops| - 1])
  }

  ghost function Locals<X>(own: seq<seq<X>>, x: X): nat {
    if own == [] then 0 else Locals(own[..|own| - 1], x) + multiset(own[|own| - 1])[x]
  }

  /** How often task x is in some local list, in the global one or in use. */
  ghost function Times<X>(s: Frees<X>, x: X): nat {
    Locals(s.own, x) + multiset(s.g)[x] + s.used[x]
  }

  lemma {:induction false} LocalsUpdate<X>(own: seq<seq<X>>, p: nat, own2: seq<X>, x: X)
    requires p < |own|
    ensures Locals(own[p := own2], x) + multiset(own[p])[x] == Locals(own, x) + multiset(own2)[x]
  {
    var n := |own| - 1;
    if p == n {
      assert own[p := own2][..n] == own[..n];
    } else {
      LocalsUpdate(own[..n], p, own2, x);
      assert own[p := own2][..n] == own[..n][p := own2];
    }
  }

  predicate Small<X>(s: Frees<X>) {
    forall p :: 0 <= p < |s.own| ==> |s.own[p]| <= 63
  }

  lemma GotTimes<X>(own: seq<X>, g: seq<X>, x: X)
    ensures var (own2, g2, t) := Got(own, g);
      multiset(own2)[x] + multiset(g2)[x] + Taken(t)[x] == multiset(own)[x] + multiset(g)[x]
    ensures |own| <= 63 ==> |Got(own, g).0| <= 63
  {
    GotConserves(own, g);
    hide Got, Taken;
    var (own2, g2, t) := Got(own, g);
    assert (multiset(own2) + multiset(g2) + Taken(t))[x] == (multiset(own) + multiset(g))[x];
  }

  lemma PutTimes<X>(own: seq<X>, g: seq<X>, t: X, x: X)
    ensures var (own2, g2) := Put(own, g, t);
      multiset(own2)[x] + multiset(g2)[x] == multiset(own)[x] + multiset(g)[x] + if x == t then 1 else 0
    ensures |Put(own, g, t).0| <= 63
  {
    PutConserves(own, g, t);
    hide Put;
    var (own2, g2) := Put(own, g, t);
    assert (multiset(own2) + multiset(g2))[x] == (multiset(own) + multiset(g) + multiset{t})[x];
  }

  lemma PurgeTimes<X>(own: seq<X>, g: seq<X>, x: X)
    ensures var (own2, g2) := Purged(own, g);
      multiset(own2)[x] + multiset(g2)[x] == multiset(own)[x] + multiset(g)[x] && own2 == []
  {
    PurgeConserves(own, g);
    var (own2, g2) := Purged(own, g);
    assert (multiset(own2) + multiset(g2))[x] == (multiset(own) + multiset(g))[x];
  }

  lemma StepConserves<X>(s: Frees<X>, op: Op<X>, x: X)
    requires Small(s)
    ensures Small(Step(s, op)) && Times(Step(s, op), x) == Times(s, x) && |Step(s, op).own| == |s.own|
  {
    hide Got, Put, Purged, Locals, Taken;
    if op.p < |s.own| {
      var own := s.own[op.p];
      match op
      case GetOp(p) =>
        GotTimes(own, s.g, x);
        LocalsUpdate(s.own, p, Got(own, s.g).0, x);
      case PutOp(p, t) =>
        PutTimes(own, s.g, t, x);
        LocalsUpdate(s.own, p, Put(own, s.g, t).0, x);
      case PurgeOp(p) =>
        PurgeTimes(own, s.g, x);
        LocalsUpdate(s.own, p, Purged(own, s.g).0, x);
    }
  }

  /** Over any run by any Ps every task is in a list or in use as often as before, and no local list exceeds 63. */
  lemma {:induction false} RunConserves<X>(s: Frees<X>, ops: seq<Op<X>>, x: X)
    requires Small(s)
    ensures Small(Run(s, ops)) && Times(Run(s, ops), x) == Times(s, x)
  {
    hide Times, Step, Small;
    if ops != [] {
      RunConserves(s, ops[..|ops| - 1], x);
      StepConserves(Run(s, ops[..|ops| - 1]), ops[|ops| - 1], x);
    }
  }
}

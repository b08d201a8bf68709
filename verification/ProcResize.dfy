/**
 Changing the number of Ps while the world is stopped (src/rt/sched.c s_procresize): where the tasks of
 the removed Ps go, and what becomes of the Ps that are kept. A ring is the sequence of its tasks and
 an intrusive list the sequence of its members.
 */
module ProcResize {
  import opened Base

  type PId = nat
  type MId = nat

  datatype PStatus = PIdle | PRunning | PSyscall | PDead

  datatype Proc = Proc(runq: seq<Task>, runnext: Option<Task>, tfree: seq<Task>, status: PStatus, m: Option<MId>)

  /** p_init */
  function NewProc(): Proc {
    Proc([], None, [], PIdle, None)
  }

  predicate Blank(p: Proc) {
    p.runq == [] && p.runnext.None? && p.tfree == []
  }

  /** What a P has to run, in the order it would run it. */
  function Work(p: Proc): seq<Task> {
    (if p.runnext.Some? then [p.runnext.value] else []) + p.runq
  }

  /** The work of a row of Ps, the last P first, each in its own order. */
  function Flushed(ps: seq<Proc>): seq<Task> {
    if ps == [] then [] else Work(ps[|ps| - 1]) + Flushed(ps[..|ps| - 1])
  }

  /** The free tasks of a row of Ps as purging one after the other stacks them up. */
  function Purged(ps: seq<Proc>): seq<Task> {
    if ps == [] then [] else Reversed(ps[|ps| - 1].tfree) + Purged(ps[..|ps| - 1])
  }

  lemma FlushedOneMore(ps: seq<Proc>, lo: nat, i: nat, g: seq<Task>, f: seq<Task>)
    requires lo <= i < |ps|
    ensures Flushed(ps[lo..i + 1]) + g == Work(ps[i]) + (Flushed(ps[lo..i]) + g)
    ensures Purged(ps[lo..i + 1]) + f == Reversed(ps[i].tfree) + (Purged(ps[lo..i]) + f)
  {
    var row := ps[lo..i + 1];
    assert row[..|row| - 1] == ps[lo..i] && row[|row| - 1] == ps[i];
    assert Work(ps[i]) + Flushed(ps[lo..i]) + g == Work(ps[i]) + (Flushed(ps[lo..i]) + g);
    assert Reversed(ps[i].tfree) + Purged(ps[lo..i]) + f == Reversed(ps[i].tfree) + (Purged(ps[lo..i]) + f);
  }

  predicate Ascending(s: seq<PId>) {
    forall i, j :: 0 <= i < j < |s| ==> s[i] < s[j]
  }

  lemma AscendingCons(i: PId, s: seq<PId>)
    requires Ascending(s) && forall j :: 0 <= j < |s| ==> i < s[j]
    ensures Ascending([i] + s)
  {
  }

  function Nth(ms: seq<MId>, k: nat): Option<MId> {
    if k < |ms| then Some(ms[k]) else None
  }

  /** The members in ascending order, none below lo or from hi on. */
  predicate Within(s: seq<PId>, lo: nat, hi: nat) {
    Ascending(s) && forall j :: 0 <= j < |s| ==> lo <= s[j] < hi
  }

  /**
   Of the Ps from lo up to hi, other than the current one, those without work are idle and those with
   work are the runnable ones; the highest runnable P got the first idle M, and so on down.
   */
  ghost predicate Listed(a: seq<Proc>, cur: PId, lo: nat, hi: nat, pidle: seq<PId>, runnable: seq<PId>,
                         midle0: seq<MId>, midle: seq<MId>)
    requires hi <= |a|
  {
    && Within(pidle, lo, hi) && Within(runnable, lo, hi) && cur !in pidle && cur !in runnable
    && (forall k :: lo <= k < hi && k != cur ==>
          && a[k].status == PIdle
          && (k in pidle <==> Work(a[k]) == []) && (k in runnable <==> Work(a[k]) != []))
    && (forall k :: k in pidle ==> k < hi && a[k].m.None?)
    && (forall j :: 0 <= j < |runnable| ==> runnable[j] < hi && a[runnable[j]].m == Nth(midle0, |runnable| - 1 - j))
    && midle == midle0[if |runnable| < |midle0| then |runnable| else |midle0|..]
  }

  lemma ListCurrent(a: seq<Proc>, cur: PId, lo: nat, hi: nat, pidle: seq<PId>, runnable: seq<PId>,
                    midle0: seq<MId>, midle: seq<MId>)
    requires lo < hi <= |a| && cur == lo && Listed(a, cur, lo + 1, hi, pidle, runnable, midle0, midle)
    ensures Listed(a, cur, lo, hi, pidle, runnable, midle0, midle)
  {
  }

  lemma ListIdle(a: seq<Proc>, cur: PId, lo: nat, hi: nat, pidle: seq<PId>, runnable: seq<PId>,
                 midle0: seq<MId>, midle: seq<MId>)
    requires lo < hi <= |a| && cur != lo && Listed(a, cur, lo + 1, hi, pidle, runnable, midle0, midle)
    requires Work(a[lo]) == [] && a[lo].m.None?
    ensures Listed(a[lo := a[lo].(status := PIdle)], cur, lo, hi, [lo] + pidle, runnable, midle0, midle)
  {
    AscendingCons(lo, pidle);
    assert forall k :: k in [lo] + pidle <==> k == lo || k in pidle;
    assert forall j :: 0 <= j < |pidle| ==> pidle[j] in pidle;
    assert lo !in runnable && lo !in pidle;
  }

  lemma ListRunnable(a: seq<Proc>, cur: PId, lo: nat, hi: nat, pidle: seq<PId>, runnable: seq<PId>,
                     midle0: seq<MId>, midle: seq<MId>)
    requires lo < hi <= |a| && cur != lo && Listed(a, cur, lo + 1, hi, pidle, runnable, midle0, midle)
    requires Work(a[lo]) != []
    ensures var m := if midle == [] then None else Some(midle[0]);
      Listed(a[lo := a[lo].(status := PIdle, m := m)], cur, lo, hi, pidle, [lo] + runnable,
             midle0, if midle == [] then midle else midle[1..])
  {
    AscendingCons(lo, runnable);
    assert forall k :: k in [lo] + runnable <==> k == lo || k in runnable;
    assert lo !in runnable && lo !in pidle;
    assert (if midle == [] then None else Some(midle[0])) == Nth(midle0, |runnable|);
  }

  /** A P kept from before holds what it held; one that is new holds nothing. */
  predicate SameWork(p: Proc, q: Proc) {
    p.runq == q.runq && p.runnext == q.runnext && p.tfree == q.tfree
  }

  /** a has n Ps, or as many as a0 if that is more; the kept ones hold what they held in a0, the others nothing. */
  ghost predicate Trimmed(a: seq<Proc>, a0: seq<Proc>, n: nat) {
    && |a| == (if |a0| < n then n else |a0|)
    && (forall i :: 0 <= i < n ==> if i < |a0| then SameWork(a[i], a0[i]) else Blank(a[i]))
    && (forall i :: n <= i < |a| ==> Blank(a[i]))
  }

  /** c is the one P that has an M, and it is running. */
  ghost predicate OneRuns(a: seq<Proc>, c: Option<PId>, self: MId, n: nat) {
    && c.Some? && c.value < n <= |a| && a[c.value].status == PRunning && a[c.value].m == Some(self)
    && forall i :: 0 <= i < |a| && Some(i) != c ==> a[i].m.None?
  }

  lemma Trimming(a0: seq<Proc>, a1: seq<Proc>, a2: seq<Proc>, old_: nat, n: nat, c: Option<PId>, self: MId)
    requires |a1| == |a2| == (if |a0| < n then n else |a0|) && old_ <= |a0|
    requires forall i :: 0 <= i < |a1| ==> if i < |a0| then SameWork(a1[i], a0[i]) else Blank(a1[i])
    requires forall i :: old_ <= i < |a0| ==> Blank(a0[i])
    requires forall k :: 0 <= k < |a1| && !(n <= k < old_) ==> a2[k] == a1[k]
    requires forall k :: n <= k < old_ ==> Blank(a2[k]) && a2[k].m == a1[k].m
    requires OneRuns(a1, c, self, n)
    ensures Trimmed(a2, a0, n) && OneRuns(a2, c, self, n)
  {
    forall i | n <= i < |a2| ensures Blank(a2[i]) {
      if i >= old_ { assert SameWork(a1[i], a0[i]); }
    }
    forall i | 0 <= i < |a2| && Some(i) != c ensures a2[i].m.None? {
      assert a1[i].m.None?;
      if n <= i < old_ { assert a2[i].m == a1[i].m; }
    }
  }

  lemma {:induction false} FlushedSame(ps: seq<Proc>, qs: seq<Proc>)
    requires |ps| == |qs| && forall i :: 0 <= i < |ps| ==> SameWork(ps[i], qs[i])
    ensures Flushed(ps) == Flushed(qs) && Purged(ps) == Purged(qs)
  {
    if ps != [] {
      var n := |ps| - 1;
      assert SameWork(ps[n], qs[n]);
      FlushedSame(ps[..n], qs[..n]);
    }
  }

// ---------- no runnable task is lost or doubled

  function AllWork(ps: seq<Proc>): multiset<Task> {
    if ps == [] then multiset{} else multiset(Work(ps[|ps| - 1])) + AllWork(ps[..|ps| - 1])
  }

  lemma {:induction false} FlushedIsAll(ps: seq<Proc>)
    ensures multiset(Flushed(ps)) == AllWork(ps)
  {
    if ps != [] { FlushedIsAll(ps[..|ps| - 1]); }
  }

  lemma {:induction false} AllWorkSplit(ps: seq<Proc>, qs: seq<Proc>)
    ensures AllWork(ps + qs) == AllWork(ps) + AllWork(qs)
  {
    if qs == [] {
      assert ps + qs == ps;
    } else {
      var n := |qs| - 1;
      assert (ps + qs)[..|ps + qs| - 1] == ps + qs[..n];
      AllWorkSplit(ps, qs[..n]);
    }
  }

  /** Keeping the first n Ps and flushing the others onto the global queue keeps every runnable task once. */
  lemma ResizeConserves(ps: seq<Proc>, n: nat, gq: seq<Task>)
    requires n <= |ps|
    ensures AllWork(ps[..n]) + multiset(Flushed(ps[n..]) + gq) == AllWork(ps) + multiset(gq)
  {
    hide AllWork, Flushed;
    AllWorkSplit(ps[..n], ps[n..]);
    assert ps[..n] + ps[n..] == ps;
    FlushedIsAll(ps[n..]);
    assert multiset(Flushed(ps[n..]) + gq) == multiset(Flushed(ps[n..])) + multiset(gq);
  }

  lemma {:induction false} AllWorkSame(ps: seq<Proc>, qs: seq<Proc>)
    requires |ps| == |qs| && forall i :: 0 <= i < |ps| ==> SameWork(ps[i], qs[i])
    ensures AllWork(ps) == AllWork(qs)
  {
    if ps != [] {
      var n := |ps| - 1;
      assert SameWork(ps[n], qs[n]);
      AllWorkSame(ps[..n], qs[..n]);
    }
  }

  /** A row of Ps of which all from k on are blank. */
  lemma {:induction false} AllWorkFront(ps: seq<Proc>, k: nat)
    requires k <= |ps| && forall i :: k <= i < |ps| ==> Blank(ps[i])
    ensures AllWork(ps) == AllWork(ps[..k])
  {
    if k == |ps| {
      assert ps[..k] == ps;
    } else {
      var n := |ps| - 1;
      AllWorkFront(ps[..n], k);
      assert ps[..n][..k] == ps[..k];
      assert Work(ps[n]) == [];
    }
  }

  /** Growing or shrinking keeps every runnable task as often as it was there. */
  lemma TrimConserves(a0: seq<Proc>, a: seq<Proc>, procs: nat, n: nat, gq: seq<Task>)
    requires procs <= |a0| && n <= |a| && Trimmed(a, a0, n) && forall i :: procs <= i < |a0| ==> Blank(a0[i])
    ensures var removed := if n < procs then a0[n..procs] else [];
      AllWork(a) + multiset(Flushed(removed) + gq) == AllWork(a0) + multiset(gq)
  {
    var k := if n < |a0| then n else |a0|;
    TrimmedWork(a0, a, n, k);
    hide AllWork, Blank, SameWork, Flushed, Trimmed;
    if n < procs {
      AllWorkFront(a0, procs);
      ResizeConserves(a0[..procs], n, gq);
      assert a0[..procs][..n] == a0[..n] && a0[..procs][n..] == a0[n..procs];
    } else {
      AllWorkFront(a0, k);
      FlushedNone(gq);
    }
  }

  lemma TrimmedWork(a0: seq<Proc>, a: seq<Proc>, n: nat, k: nat)
    requires n <= |a| && Trimmed(a, a0, n) && k == if n < |a0| then n else |a0|
    ensures AllWork(a) == AllWork(a0[..k])
  {
    hide AllWork;
    forall i | k <= i < |a| ensures Blank(a[i]) { }
    forall i | 0 <= i < k ensures SameWork(a[..k][i], a0[..k][i]) { }
    hide Blank, SameWork, Trimmed;
    AllWorkFront(a, k);
    AllWorkSame(a[..k], a0[..k]);
  }

  lemma TrimmedLength(a: seq<Proc>, a0: seq<Proc>, n: nat)
    requires Trimmed(a, a0, n)
    ensures |a| >= n
  {
  }

  /** Listing the Ps leaves their work as trimming left it. */
  lemma Resized(a0: seq<Proc>, a: seq<Proc>, b: seq<Proc>, n: nat)
    requires Trimmed(a, a0, n) && |b| == |a| && n <= |a| && forall i :: 0 <= i < |a| ==> SameWork(b[i], a[i])
    ensures AllWork(b) == AllWork(a)
    ensures forall i :: 0 <= i < n ==> if i < |a0| then SameWork(b[i], a0[i]) else Blank(b[i])
    ensures forall i :: n <= i < |b| ==> Blank(b[i])
  {
    AllWorkSame(b, a);
    hide AllWork;
  }

  lemma FlushedNone(gq: seq<Task>)
    ensures Flushed([]) + gq == gq
  {
  }

  class S {
    var allp: seq<Proc>        // as many as were ever allocated
    var maxprocs: nat
    var runq: seq<Task>
    var runqsize: nat
    var tfree: seq<Task>
    var tfreen: nat
    var pidle: seq<PId>
    var npidle: nat
    var idlepMask: set<PId>
    var midle: seq<MId>
    var cur: Option<PId>       // the P of the calling M

    /** The world is stopped: nobody but the caller has a P and the idle list has been emptied. */
    ghost predicate Stopped(self: MId)
      reads this
    {
      && maxprocs <= |allp| && runqsize == |runq| && tfreen == |tfree|
      && pidle == [] && npidle == 0 && idlepMask == {}
      && (cur.Some? ==> cur.value < maxprocs && allp[cur.value].m == Some(self))
      && (forall i :: 0 <= i < |allp| && Some(i) != cur ==> allp[i].m.None?)
      && (forall i :: maxprocs <= i < |allp| ==> Blank(allp[i]))
    }

    /** What s_procresize leaves: every kept P is the current one, idle or returned as runnable. */
    ghost predicate Placed(self: MId, runnable: seq<PId>, midle0: seq<MId>)
      reads this
    {
      && maxprocs <= |allp| && runqsize == |runq| && tfreen == |tfree|
      && cur.Some? && cur.value < maxprocs
      && allp[cur.value].status == PRunning && allp[cur.value].m == Some(self)
      && npidle == |pidle| && idlepMask == (set p | p in pidle)
      && Listed(allp, cur.value, 0, maxprocs, pidle, runnable, midle0, midle)
      && (forall i :: maxprocs <= i < |allp| ==> Blank(allp[i]))
    }

    /** Initialise the Ps that were never allocated. */
    method Grow(old_: nat, nprocs: nat)
      requires old_ <= |allp|
      modifies this`allp
      ensures |allp| == if |old(allp)| < nprocs then nprocs else |old(allp)|
      ensures allp[..|old(allp)|] == old(allp)
      ensures forall i :: |old(allp)| <= i < |allp| ==> allp[i] == NewProc()
    {
      var i := old_;
      while i < nprocs
        invariant old_ <= i && i <= |allp|
        invariant |allp| == if i <= |old(allp)| then |old(allp)| else i
        invariant i <= nprocs || i == old_
        invariant allp[..|old(allp)|] == old(allp)
        invariant forall k :: |old(allp)| <= k < |allp| ==> allp[k] == NewProc()
      {
        if i == |allp| { allp := allp + [NewProc()]; }
        i := i + 1;
      }
    }

    /** Keep the current P if it survives, or else take the first. */
    method Settle(self: MId, nprocs: nat)
      requires 0 < nprocs <= |allp|
      requires cur.Some? ==> cur.value < |allp| && allp[cur.value].m == Some(self)
      requires forall i :: 0 <= i < |allp| && Some(i) != cur ==> allp[i].m.None?
      modifies this`allp, this`cur
      ensures cur == if old(cur).Some? && old(cur).value < nprocs then old(cur) else Some(0)
      ensures |allp| == |old(allp)| && forall i :: 0 <= i < |allp| ==> SameWork(allp[i], old(allp)[i])
      ensures allp[cur.value].status == PRunning && allp[cur.value].m == Some(self)
      ensures forall i :: 0 <= i < |allp| && Some(i) != cur ==> allp[i].m.None?
    {
      if cur.Some? && cur.value < nprocs {
        allp := allp[cur.value := allp[cur.value].(status := PRunning)];
      } else {
        if cur.Some? {
          allp := allp[cur.value := allp[cur.value].(m := None)];
          cur := None;
        }
        allp := allp[0 := allp[0].(m := None, status := PIdle)];
        cur := Some(0);
        allp := allp[0 := allp[0].(m := Some(self), status := PRunning)];
      }
    }

    /** Pop the ring of P i from its tail (Ring.P.PopTail) onto the head of the global queue, then its runnext. */
    method FlushWork(i: PId)
      requires i < |allp| && runqsize == |runq|
      modifies this`allp, this`runq, this`runqsize
      ensures runq == Work(old(allp)[i]) + old(runq) && runqsize == |runq|
      ensures allp == old(allp)[i := old(allp)[i].(runq := [], runnext := None)]
    {
      ghost var p0 := allp[i];
      ghost var g := runq;
      ghost var n := |p0.runq|;
      assert p0.runq[n..] + g == g && p0.runq[..n] == p0.runq;
      assert p0 == p0.(runq := p0.runq[..n]) && allp == allp[i := p0];
      while allp[i].runq != []
        invariant i < |allp| && n <= |p0.runq| && allp == old(allp)[i := p0.(runq := p0.runq[..n])]
        invariant runq == p0.runq[n..] + g && runqsize == |runq|
        decreases n
      {
        var last := |allp[i].runq| - 1;
        var t := allp[i].runq[last];
        n := n - 1;
        assert p0.runq[..n + 1][..n] == p0.runq[..n] && t == p0.runq[n];
        allp := allp[i := allp[i].(runq := allp[i].runq[..last])];
        assert [t] + (p0.runq[n + 1..] + g) == p0.runq[n..] + g;
        runq := [t] + runq;
        runqsize := runqsize + 1;
      }
      if allp[i].runnext.Some? {
        runq := [allp[i].runnext.value] + runq;
        runqsize := runqsize + 1;
        allp := allp[i := allp[i].(runnext := None)];
      }
    }

    /** p_tfree_purge */
    method PurgeFree(i: PId)
      requires i < |allp| && tfreen == |tfree|
      modifies this`allp, this`tfree, this`tfreen
      ensures tfree == Reversed(old(allp)[i].tfree) + old(tfree) && tfreen == |tfree|
      ensures allp == old(allp)[i := old(allp)[i].(tfree := [])]
    {
      ghost var p0 := allp[i];
      var q: seq<Task> := [];
      var inc := 0;
      while allp[i].tfree != []
        invariant i < |allp| && allp == old(allp)[i := p0.(tfree := allp[i].tfree)]
        invariant tfree == old(tfree) && tfreen == |tfree|
        invariant |q| == inc && Reversed(allp[i].tfree) + q == Reversed(p0.tfree)
        decreases |allp[i].tfree|
      {
        ghost var rest := allp[i].tfree;
        var t := allp[i].tfree[0];
        assert Reversed(rest[1..]) + ([t] + q) == Reversed(rest) + q;
        q := [t] + q;
        allp := allp[i := allp[i].(tfree := allp[i].tfree[1..])];
        inc := inc + 1;
      }
      assert q == Reversed(p0.tfree) by { assert Reversed([]) + q == q; }
      tfree := q + tfree;
      tfreen := tfreen + inc;
    }

    /** Everything a removed P has goes to the global queue and the global free list. */
    method Destroy(i: PId)
      requires i < |allp| && runqsize == |runq| && tfreen == |tfree|
      modifies this`allp, this`runq, this`runqsize, this`tfree, this`tfreen
      ensures runq == Work(old(allp)[i]) + old(runq) && runqsize == |runq|
      ensures tfree == Reversed(old(allp)[i].tfree) + old(tfree) && tfreen == |tfree|
      ensures allp == old(allp)[i := Proc([], None, [], PDead, old(allp)[i].m)]
    {
      FlushWork(i);
      PurgeFree(i);
      allp := allp[i := allp[i].(status := PDead)];
    }

    /** Destroy the Ps from nprocs on, in order. */
    method Shrink(nprocs: nat, old_: nat)
      requires nprocs <= old_ <= |allp| && runqsize == |runq| && tfreen == |tfree|
      modifies this`allp, this`runq, this`runqsize, this`tfree, this`tfreen
      ensures runq == Flushed(old(allp)[nprocs..old_]) + old(runq) && runqsize == |runq|
      ensures tfree == Purged(old(allp)[nprocs..old_]) + old(tfree) && tfreen == |tfree|
      ensures |allp| == |old(allp)|
      ensures forall k :: 0 <= k < |allp| && !(nprocs <= k < old_) ==> allp[k] == old(allp)[k]
      ensures forall k :: nprocs <= k < old_ ==> Blank(allp[k]) && allp[k].m == old(allp)[k].m
    {
      ghost var a := allp;
      var i := nprocs;
      assert a[nprocs..i] == [];
      while i < old_
        invariant nprocs <= i <= old_ && |allp| == |a|
        invariant runq == Flushed(a[nprocs..i]) + old(runq) && runqsize == |runq|
        invariant tfree == Purged(a[nprocs..i]) + old(tfree) && tfreen == |tfree|
        invariant forall k :: 0 <= k < |allp| && !(nprocs <= k < i) ==> allp[k] == a[k]
        invariant forall k :: nprocs <= k < i ==> Blank(allp[k]) && allp[k].m == a[k].m
      {
        Destroy(i);
        FlushedOneMore(a, nprocs, i, old(runq), old(tfree));
        i := i + 1;
      }
    }

    /** One P without work goes idle: the status change and s_pidleput. */
    method PutIdle(i: PId)
      requires i < |allp| && npidle == |pidle| && idlepMask == (set p | p in pidle)
      modifies this`allp, this`pidle, this`npidle, this`idlepMask
      ensures allp == old(allp)[i := old(allp)[i].(status := PIdle)] && pidle == [i] + old(pidle)
      ensures npidle == |pidle| && idlepMask == (set p | p in pidle)
    {
      allp := allp[i := allp[i].(status := PIdle)];
      idlepMask := idlepMask + {i};
      pidle := [i] + pidle;
      npidle := npidle + 1;
    }

    /** One P with work gets an idle M, if there is one: the status change and s_midleget. */
    method GetM(i: PId)
      requires i < |allp|
      modifies this`allp, this`midle
      ensures var m := if old(midle) == [] then None else Some(old(midle)[0]);
        allp == old(allp)[i := old(allp)[i].(status := PIdle, m := m)]
      ensures midle == if old(midle) == [] then [] else old(midle)[1..]
    {
      var m := None;
      if midle != [] {
        m := Some(midle[0]);
        midle := midle[1..];
      }
      allp := allp[i := allp[i].(status := PIdle, m := m)];
    }

    /** What the loop of Enlist has done when it is at P i. */
    ghost predicate Enlisted(a0: seq<Proc>, c: PId, i: nat, nprocs: nat, runnable: seq<PId>, midle0: seq<MId>)
      reads this
    {
      && i <= nprocs <= |allp| && |allp| == |a0| && cur == Some(c) && c < nprocs && allp[c] == a0[c]
      && npidle == |pidle| && idlepMask == (set p | p in pidle)
      && (forall k :: 0 <= k < |allp| ==> SameWork(allp[k], a0[k]))
      && (forall k :: 0 <= k < i ==> allp[k] == a0[k])
      && Listed(allp, c, i, nprocs, pidle, runnable, midle0, midle)
    }

    method EnlistOne(i: PId, nprocs: nat, runnable: seq<PId>, ghost a0: seq<Proc>, ghost c: PId, ghost midle0: seq<MId>)
      returns (r: seq<PId>)
      requires Enlisted(a0, c, i + 1, nprocs, runnable, midle0)
      requires i != c ==> a0[i].m.None?
      modifies this`allp, this`pidle, this`npidle, this`idlepMask, this`midle
      ensures Enlisted(a0, c, i, nprocs, r, midle0)
    {
      r := runnable;
      if cur == Some(i) {
        ListCurrent(allp, c, i, nprocs, pidle, runnable, midle0, midle);
      } else if Work(allp[i]) == [] {
        ListIdle(allp, c, i, nprocs, pidle, runnable, midle0, midle);
        PutIdle(i);
      } else {
        ListRunnable(allp, c, i, nprocs, pidle, runnable, midle0, midle);
        GetM(i);
        r := [i] + runnable;
      }
    }

    /** Put each kept P but the current one on the idle list or on the list of those with work. */
    method Enlist(nprocs: nat) returns (runnable: seq<PId>)
      requires 0 < nprocs <= |allp| && cur.Some? && cur.value < nprocs
      requires pidle == [] && npidle == 0 && idlepMask == {}
      requires forall i :: 0 <= i < |allp| && Some(i) != cur ==> allp[i].m.None?
      modifies this`allp, this`pidle, this`npidle, this`idlepMask, this`midle
      ensures Enlisted(old(allp), old(cur).value, 0, nprocs, runnable, old(midle))
    {
      ghost var a0, c, midle0 := allp, cur.value, midle;
      runnable := [];
      var i := nprocs;
      while i > 0
        invariant 0 <= i <= nprocs && Enlisted(a0, c, i, nprocs, runnable, midle0)
      {
        i := i - 1;
        runnable := EnlistOne(i, nprocs, runnable, a0, c, midle0);
      }
    }

    function Removed(old_: nat, nprocs: nat): seq<Proc>
      requires old_ <= |allp|
      reads this`allp
    {
      if nprocs < old_ then allp[nprocs..old_] else []
    }

    /** The Ps grown, the current one settled. */
    method Ready(self: MId, nprocs: nat)
      requires Stopped(self) && nprocs > 0
      modifies this`allp, this`cur
      ensures cur == if old(cur).Some? && old(cur).value < nprocs then old(cur) else Some(0)
      ensures |allp| == if |old(allp)| < nprocs then nprocs else |old(allp)|
      ensures forall i :: 0 <= i < |allp| ==>
        if i < |old(allp)| then SameWork(allp[i], old(allp)[i]) else Blank(allp[i])
      ensures OneRuns(allp, cur, self, nprocs)
      ensures Flushed(Removed(maxprocs, nprocs)) == old(Flushed(Removed(maxprocs, nprocs)))
      ensures Purged(Removed(maxprocs, nprocs)) == old(Purged(Removed(maxprocs, nprocs)))
    {
      ghost var a0 := allp;
      Grow(maxprocs, nprocs);
      ghost var a1 := allp;
      assert forall i :: 0 <= i < |a0| ==> a1[i] == a1[..|a0|][i];
      Settle(self, nprocs);
      FlushedSame(Removed(maxprocs, nprocs), old(Removed(maxprocs, nprocs)));
    }

    /** The Ps grown, the current one settled and the removed ones destroyed. */
    method Trim(self: MId, nprocs: nat)
      requires Stopped(self) && nprocs > 0
      modifies this`allp, this`cur, this`runq, this`runqsize, this`tfree, this`tfreen
      ensures Trimmed(allp, old(allp), nprocs) && OneRuns(allp, cur, self, nprocs)
      ensures runqsize == |runq| && tfreen == |tfree|
      ensures cur == if old(cur).Some? && old(cur).value < nprocs then old(cur) else Some(0)
      ensures runq == old(Flushed(Removed(maxprocs, nprocs)) + runq)
      ensures tfree == old(Purged(Removed(maxprocs, nprocs)) + tfree)
      ensures AllWork(allp) + multiset(runq) == old(AllWork(allp) + multiset(runq))
    {
      hide AllWork;
      ghost var a0 := allp;
      Ready(self, nprocs);
      ghost var a1 := allp;
      if nprocs < maxprocs { Shrink(nprocs, maxprocs); }
      Trimming(a0, a1, allp, maxprocs, nprocs, cur, self);
      TrimConserves(a0, allp, maxprocs, nprocs, old(runq));
    }

    /** s_procresize */
    method Resize(self: MId, nprocs: nat) returns (runnable: seq<PId>)
      requires Stopped(self) && nprocs > 0
      modifies this
      ensures Placed(self, runnable, old(midle)) && maxprocs == nprocs
      ensures cur == if old(cur).Some? && old(cur).value < nprocs then old(cur) else Some(0)
      ensures forall i :: 0 <= i < nprocs ==>
        if i < |old(allp)| then SameWork(allp[i], old(allp)[i]) else Blank(allp[i])
      ensures runq == old(Flushed(Removed(maxprocs, nprocs)) + runq)
      ensures tfree == old(Purged(Removed(maxprocs, nprocs)) + tfree)
      ensures AllWork(allp) + multiset(runq) == old(AllWork(allp) + multiset(runq))
    {
      hide AllWork, Flushed, Purged, Trimmed, SameWork, Blank, Listed;
      ghost var a0 := allp;
      Trim(self, nprocs);
      ghost var a := allp;
      assert |a| >= nprocs by { TrimmedLength(a, a0, nprocs); }
      runnable := Enlist(nprocs);
      maxprocs := nprocs;
      Resized(a0, a, allp, nprocs);
    }
  }
}

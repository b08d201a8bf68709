/**
 What p_wake is for: an idle P is started when a task becomes runnable and no M is spinning; and it is left
 idle only for a reason.
 */
module SchedulerWakes {
  import opened Base
  import opened Scheduler
  import opened SchedulerInv
  import opened SchedulerRuns
  import opened SchedulerProgress
  import Q = SchedulerQueues

  // ---------- an M alone

  /** Only M m acts. */
  predicate By(acts: seq<Action>, m: MId) {
    forall a :: a in acts ==> a.m == m
  }

  /** One more step of a run. */
  lemma Then(s0: World, acts: seq<Action>, a: Action)
    requires Inv(s0)
    ensures Run(s0, acts + [a]) == Step(Run(s0, acts), a) && Inv(Run(s0, acts)) && Inv(Step(Run(s0, acts), a))
  {
    hide Inv, Step;
    assert (acts + [a])[..|acts + [a]| - 1] == acts;
    RunKept(s0, acts);
    StepKept(Run(s0, acts), a);
  }

  /** The M's next step after the run acts. */
  lemma Onward(s: World, acts: seq<Action>, m: MId, a: Action, s1: World) returns (acts2: seq<Action>)
    requires Inv(s) && By(acts, m) && a.m == m && Run(s, acts) == s1
    ensures By(acts2, m) && Run(s, acts2) == Step(s1, a)
  {
    hide Inv, Step, Run;
    acts2 := acts + [a];
    Then(s, acts, a);
  }

  lemma Nothing(s: World, m: MId)
    ensures By([], m) && Run(s, []) == s
  {
  }

  lemma LocalLocal(s: World, m: MId, x: Mach, i: int, y: Mach, j: int)
    ensures Local(Local(s, m, x, i), m, y, j) == Local(s, m, y, j)
  {
  }

  /** State s with M m at pc, and n for nmspinning. */
  function At(s: World, m: MId, pc: Pc, n: int): World
    requires m in s.ms
  {
    Local(s, m, s.ms[m].(pc := pc), n)
  }

  /** What a step of p_wake does before it calls p_startm, if it sees no reason to return. */
  lemma WakeGoesOn(s: World, m: MId, k: Cont)
    requires Inv(s) && m in s.ms
    ensures s.ms[m].pc == WakeIdle(k) && s.idle != [] ==> Step(s, Go(m)) == At(s, m, WakeSpin(k), s.nmspinning)
    ensures s.ms[m].pc == WakeSpin(k) && s.nmspinning == 0 ==> Step(s, Go(m)) == At(s, m, WakeCas(k), s.nmspinning)
    ensures s.ms[m].pc == WakeCas(k) && s.nmspinning == 0 ==> Step(s, Go(m)) == At(s, m, WakeStart(k), 1)
  {
    if WakeCont(s.ms[m].pc).Some? {
      WakingOwns(s, m);
      assert s.npidle == |s.idle|;
      NoPanic(s);
      GoIs(s, m, s.ms[m].p.value);
      hide Inv, Step;
    }
  }

  /** An M in p_wake has a P. */
  lemma WakingOwns(s: World, m: MId)
    requires Inv(s) && m in s.ms && WakeCont(s.ms[m].pc).Some?
    ensures s.ms[m].p.Some? && s.ms[m].p.value < |s.ps| && s.ms[m].p.value < |s.holder|
  {
    MachOf(s, m);
    OwnerOf(s, m, s.ms[m].p.value);
    hide Tasks, ParkedOk, SpinOk, MachsOk;
  }

  lemma AtAt(s: World, m: MId, pc: Pc, i: int, pc2: Pc, j: int)
    requires m in s.ms
    ensures At(At(s, m, pc, i), m, pc2, j) == At(s, m, pc2, j)
  {
    LocalLocal(s, m, s.ms[m].(pc := pc), i, s.ms[m].(pc := pc2), j);
  }

  /** p_wake alone, with an idle P and no spinning M, comes to p_startm. */
  lemma WakeReaches(s0: World, before: seq<Action>, m: MId, k: Cont)
    requires Inv(s0)
    requires var s := Run(s0, before); m in s.ms && s.ms[m].pc == WakeIdle(k) && s.idle != [] && s.nmspinning == 0
    ensures Run(s0, before + [Go(m), Go(m), Go(m)]) == At(Run(s0, before), m, WakeStart(k), 1)
  {
    hide Inv, Step, Run;
    var s := Run(s0, before);
    Then(s0, before, Go(m));
    WakeGoesOn(s, m, k);
    Then(s0, before + [Go(m)], Go(m));
    WakeGoesOn(At(s, m, WakeSpin(k), 0), m, k);
    AtAt(s, m, WakeSpin(k), 0, WakeCas(k), 0);
    assert before + [Go(m)] + [Go(m)] == before + [Go(m), Go(m)];
    Then(s0, before + [Go(m), Go(m)], Go(m));
    WakeGoesOn(At(s, m, WakeCas(k), 0), m, k);
    AtAt(s, m, WakeCas(k), 0, WakeStart(k), 1);
    assert before + [Go(m), Go(m)] + [Go(m)] == before + [Go(m), Go(m), Go(m)];
  }

  /**
   From s to s2 M m has returned from p_wake to what k says, and the first idle P has been promised to M n,
   which is to go on spinning; n was the first of the idle Ms, or there was none and it is new.
   */
  predicate Helped(s: World, s2: World, m: MId, k: Cont, n: MId)
    requires m in s.ms
  {
    && n != m && m in s2.ms && n in s2.ms && s2.ms[m] == s.ms[m].(pc := Return(k))
    && s.idle != [] && s2.idle == s.idle[1..] && s2.ms[n].nextp == Some(s.idle[0]) && s2.ms[n].p.None?
    && s2.ps == s.ps && s2.gq == s.gq && s2.status == s.status
    && if s.midle != [] then n == s.midle[0] && s2.midle == s.midle[1..] && s2.ms[n].pc.Woken? && s2.ms[n].spinning
       else n !in s.ms && s2.midle == [] && s2.ms[n].pc.Starting?
  }

  lemma StartIs(s: World, m: MId, k: Cont)
    requires Inv(s) && m in s.ms && s.ms[m].pc == WakeStart(k)
    ensures Step(s, Go(m)) == StartStep(s, m, k)
  {
    WakingOwns(s, m);
    NoPanic(s);
    hide Inv, Step, StartStep;
    GoIs(s, m, s.ms[m].p.value);
  }

  lemma StartsAlone(s: World, m: MId, k: Cont)
    requires Inv(s) && m in s.ms && s.ms[m].pc == WakeStart(k) && s.idle != [] && s.midle == []
    ensures var s1 := Step(s, Go(m));
      && s1.ms == s.ms[m := s.ms[m].(pc := WakeNew(k, s.idle[0]))] && s1.idle == s.idle[1..] && s1.midle == []
      && s1.ps == s.ps && s1.gq == s.gq && s1.status == s.status
  {
    hide Inv, Step;
    StartIs(s, m, k);
  }

  lemma CreateIs(s: World, m: MId, n: MId, k: Cont, p: PId)
    requires Inv(s) && m in s.ms && s.ms[m].pc == WakeNew(k, p) && n !in s.ms
    ensures var s2 := Step(s, CreateM(m, n));
      && s2.ms == s.ms[n := Mach(Starting, None, false, None, Some(p))][m := s.ms[m].(pc := Return(k))]
      && s2.idle == s.idle && s2.midle == s.midle && s2.ps == s.ps && s2.gq == s.gq && s2.status == s.status
  {
    hide Return, Inv;
    NoPanic(s);
    assert Step(s, CreateM(m, n)) == CreateStep(s, m, n);
    hide Step;
  }

  /** With no M in reserve a new one is created for the P. */
  lemma StartsNew(s: World, m: MId, k: Cont, n: MId)
    requires Inv(s) && m in s.ms && s.ms[m].pc == WakeStart(k) && s.idle != [] && s.midle == [] && n !in s.ms
    ensures Helped(s, Step(Step(s, Go(m)), CreateM(m, n)), m, k, n)
  {
    hide Inv, Step, Return;
    StartsAlone(s, m, k);
    StepKept(s, Go(m));
    CreateIs(Step(s, Go(m)), m, n, k, s.idle[0]);
  }

  /** The M taken off the idle list, before it has the P. */
  lemma StartsIdle(s: World, m: MId, k: Cont)
    requires Inv(s) && m in s.ms && s.ms[m].pc == WakeStart(k) && s.idle != [] && s.midle != []
    ensures var n, s1 := s.midle[0], Step(s, Go(m));
      && n != m && n in s.ms
      && s1.ms == s.ms[n := s.ms[n].(pc := Claimed(m))][m := s.ms[m].(pc := WakeHand(k, n, s.idle[0]))]
      && s1.idle == s.idle[1..] && s1.midle == s.midle[1..] && s1.ps == s.ps && s1.gq == s.gq && s1.status == s.status
  {
    StartIs(s, m, k);
    assert s.midle[0] in s.midle;
    hide Inv, Step;
  }

  lemma HandIs(s: World, m: MId, k: Cont, n: MId, p: PId)
    requires Inv(s) && m in s.ms && s.ms[m].pc == WakeHand(k, n, p)
    ensures n in s.ms && n != m && p < |s.holder| && s.ms[n].p.None?
    ensures Step(s, Go(m)) ==
      s.(ms := s.ms[n := s.ms[n].(pc := Woken, spinning := true, nextp := Some(p))][m := s.ms[m].(pc := Return(k))],
         holder := s.holder[p := Promised(n)])
  {
    WakingOwns(s, m);
    HandFacts(s, m, k, n, p);
    CarriedOf(s, m, p);
    NoPanic(s);
    hide Inv, Step, Return;
    GoIs(s, m, s.ms[m].p.value);
  }

  /** With an M in reserve the P is handed to it. */
  lemma StartsOne(s: World, m: MId, k: Cont)
    requires Inv(s) && m in s.ms && s.ms[m].pc == WakeStart(k) && s.idle != [] && s.midle != []
    ensures Helped(s, Step(Step(s, Go(m)), Go(m)), m, k, s.midle[0])
  {
    hide Inv, Step, Return;
    StartsIdle(s, m, k);
    StepKept(s, Go(m));
    HandIs(Step(s, Go(m)), m, k, s.midle[0], s.idle[0]);
  }

  /** p_wake alone from the swap on, by M m, with n in reserve or to be created. */
  lemma StartsSome(s0: World, before: seq<Action>, m: MId, k: Cont, n: MId) returns (acts: seq<Action>)
    requires Inv(s0)
    requires var s := Run(s0, before); m in s.ms && s.ms[m].pc == WakeStart(k) && s.idle != []
    requires var s := Run(s0, before); if s.midle == [] then n !in s.ms else n == s.midle[0]
    ensures By(acts, m) && |acts| == 2 && Inv(Run(s0, before + acts))
    ensures Helped(Run(s0, before), Run(s0, before + acts), m, k, n)
  {
    hide Inv, Step, Run, Helped;
    var s := Run(s0, before);
    var a := if s.midle == [] then CreateM(m, n) else Go(m);
    acts := [Go(m), a];
    Then(s0, before, Go(m));
    Then(s0, before + [Go(m)], a);
    assert before + [Go(m)] + [a] == before + acts;
    if s.midle == [] { StartsNew(s, m, k, n); } else { StartsOne(s, m, k); }
  }

  /**
   A p_wake that nobody interferes with, with an idle P and no M spinning, starts an M for that P, and
   returns: in five steps.
   */
  lemma WakeWorks(s0: World, before: seq<Action>, m: MId, k: Cont, newM: MId) returns (acts: seq<Action>, n: MId)
    requires Inv(s0)
    requires var s := Run(s0, before);
      && m in s.ms && s.ms[m].pc == WakeIdle(k) && s.idle != [] && s.nmspinning == 0 && newM !in s.ms
    ensures By(acts, m) && |acts| == 5 && Inv(Run(s0, before + acts))
    ensures Helped(Run(s0, before), Run(s0, before + acts), m, k, n)
  {
    var s := Run(s0, before);
    hide Inv, Step, Run;
    WakeReaches(s0, before, m, k);
    var b := before + [Go(m), Go(m), Go(m)];
    var s1 := Run(s0, b);
    n := if s.midle == [] then newM else s.midle[0];
    var rest := StartsSome(s0, b, m, k, n);
    acts := [Go(m), Go(m), Go(m)] + rest;
    assert b + rest == before + acts;
    SameHelp(s, s1, Run(s0, b + rest), m, k, n);
  }

  lemma SameHelp(s: World, s1: World, s2: World, m: MId, k: Cont, n: MId)
    requires m in s.ms && s1 == At(s, m, WakeStart(k), 1) && Helped(s1, s2, m, k, n)
    ensures Helped(s, s2, m, k, n)
  {
    hide Return;
  }

  /** An M that s_newm has created starts with the P promised to it, spinning. */
  lemma StartingArrives(s: World, m: MId, p: PId)
    requires Inv(s) && m in s.ms && s.ms[m].pc.Starting? && s.ms[m].nextp == Some(p)
    ensures var s2 := Step(s, Go(m));
      && m in s2.ms && s2.ms[m].pc.Sched? && s2.ms[m].p == Some(p) && s2.ms[m].spinning
      && p < |s2.ps| && s2.ps[p].m == Some(m) && s2.ps[p].running
  {
    PromiseOf(s, m);
    MachOf(s, m);
    NoPanic(s);
    hide Inv, Step;
    LooseIs(s, m);
  }

  /** And then M n, with one step of its own, has the P and looks for work with it, spinning. */
  lemma HelperGetsP(s: World, s2: World, m: MId, k: Cont, n: MId)
    requires Inv(s2) && m in s.ms && Helped(s, s2, m, k, n)
    ensures var p, s3 := s.idle[0], Step(s2, Go(n));
      && n in s3.ms && s3.ms[n].p == Some(p) && s3.ms[n].spinning && (s3.ms[n].pc.Sched? || s3.ms[n].pc.Find?)
      && p < |s3.ps| && s3.ps[p].m == Some(n) && s3.ps[p].running
  {
    hide Inv, Step;
    if s.midle == [] { StartingArrives(s2, n, s.idle[0]); } else { WokenArrives(s2, n, s.idle[0]); }
  }

  // ---------- whatever the others do

  /** With step a of p_wake M m sees no idle P, or a spinning M. */
  predicate Saw(s: World, a: Action, m: MId) {
    && a == Go(m) && m in s.ms
    && match s.ms[m].pc
       case WakeIdle(_) => s.npidle == 0
       case WakeSpin(_) => s.nmspinning != 0
       case WakeCas(_) => s.nmspinning != 0
       case WakeStart(_) => s.idle == []
       case _ => false
  }

  /** With step a of p_wake M m promises the idle P that it holds to an M that had none. */
  ghost predicate Promises(s: World, a: Action, m: MId) {
    && a.m == m && m in s.ms && Carried(s.ms[m].pc).Some?
    && exists n :: n != m && n in Step(s, a).ms && Step(s, a).ms[n].nextp == Carried(s.ms[m].pc)
         && (Step(s, a).ms[n].pc.Woken? || (Step(s, a).ms[n].pc.Starting? && n !in s.ms))
  }

  /** M m is in p_wake, and not on its way out of it. */
  predicate Waking(s: World, m: MId, k: Cont) {
    m in s.ms && WakeCont(s.ms[m].pc) == Some(k) && !s.ms[m].pc.WakeUndo?
  }

  lemma LoadGoesOn(s: World, m: MId, k: Cont)
    requires Inv(s) && m in s.ms && !Saw(s, Go(m), m)
    requires s.ms[m].pc == WakeIdle(k) || s.ms[m].pc == WakeSpin(k) || s.ms[m].pc == WakeCas(k)
    ensures Waking(Step(s, Go(m)), m, k)
  {
    hide Inv, Step;
    IdleCounted(s);
    WakeGoesOn(s, m, k);
  }

  lemma StartGoesOn(s: World, m: MId, k: Cont)
    requires Inv(s) && m in s.ms && !Saw(s, Go(m), m) && s.ms[m].pc == WakeStart(k)
    ensures Waking(Step(s, Go(m)), m, k)
  {
    hide Inv, Step;
    if s.midle == [] { StartsAlone(s, m, k); } else { StartsIdle(s, m, k); }
  }

  lemma HandPromises(s: World, m: MId, k: Cont, n: MId, p: PId)
    requires Inv(s) && m in s.ms && s.ms[m].pc == WakeHand(k, n, p)
    ensures Promises(s, Go(m), m)
  {
    hide Inv, Step;
    HandIs(s, m, k, n, p);
    assert Step(s, Go(m)).ms[n].pc.Woken? && Step(s, Go(m)).ms[n].nextp == Some(p);
  }

  lemma CreatePromises(s: World, m: MId, k: Cont, n: MId, p: PId)
    requires Inv(s) && m in s.ms && s.ms[m].pc == WakeNew(k, p) && n !in s.ms
    ensures Promises(s, CreateM(m, n), m)
  {
    hide Inv, Step;
    CreateIs(s, m, n, k, p);
    assert Step(s, CreateM(m, n)).ms[n].pc.Starting? && Step(s, CreateM(m, n)).ms[n].nextp == Some(p);
  }

  /** The M's own step of p_wake. */
  lemma OwnWakeStep(s: World, a: Action, m: MId, k: Cont)
    requires Inv(s) && Waking(s, m, k) && Due(s, m, a) && !Saw(s, a, m)
    ensures Promises(s, a, m) || Waking(Step(s, a), m, k)
  {
    hide Inv, Step, Saw, Promises;
    match s.ms[m].pc
    case WakeStart(_) => StartGoesOn(s, m, k);
    case WakeHand(_, n, p) => HandPromises(s, m, k, n, p);
    case WakeNew(_, p) => CreatePromises(s, m, k, a.nm, p);
    case _ => LoadGoesOn(s, m, k);
  }

  lemma IdleCounted(s: World)
    requires Inv(s)
    ensures s.npidle == |s.idle|
  {
  }

  /** A step of any M. */
  lemma WakeStays(s: World, a: Action, m: MId, k: Cont)
    requires Inv(s) && Waking(s, m, k) && !Saw(s, a, m) && !Promises(s, a, m)
    ensures Waking(Step(s, a), m, k)
  {
    MachOf(s, m);
    hide Inv, Step, Saw, Promises;
    if Due(s, m, a) {
      OwnWakeStep(s, a, m, k);
    } else if a.m == m {
      assert TaskOf(s.ms[m]).Some?;
      NotDueStays(s, m, TaskOf(s.ms[m]).value, a);
    } else {
      OthersLeave(s, m, a);
    }
  }

  lemma {:induction false} StillWaking(s0: World, acts: seq<Action>, m: MId, k: Cont)
    requires Inv(s0) && Waking(s0, m, k)
    requires forall i :: 0 <= i < |acts| ==>
               !Saw(Run(s0, acts[..i]), acts[i], m) && !Promises(Run(s0, acts[..i]), acts[i], m)
    ensures Waking(Run(s0, acts), m, k)
  {
    hide Inv, Step, Saw, Promises, Waking;
    if acts != [] {
      var init, a := acts[..|acts| - 1], acts[|acts| - 1];
      forall i | 0 <= i < |init|
        ensures !Saw(Run(s0, init[..i]), init[i], m) && !Promises(Run(s0, init[..i]), init[i], m)
      {
        assert init[..i] == acts[..i] && init[i] == acts[i];
      }
      StillWaking(s0, init, m, k);
      RunKept(s0, init);
      assert acts[..|acts| - 1] == init;
      WakeStays(Run(s0, init), a, m, k);
    }
  }

  /**
   Whatever steps the other Ms take, a p_wake that has returned has started an M for an idle P, or has seen,
   at one of its loads, its swap or in p_startm, that there was no idle P or that an M was spinning.
   */
  lemma NoWakeWithoutReason(s0: World, acts: seq<Action>, m: MId, k: Cont)
    requires Inv(s0) && m in s0.ms && s0.ms[m].pc == WakeIdle(k)
    requires var s := Run(s0, acts); m !in s.ms || WakeCont(s.ms[m].pc) != Some(k)
    ensures exists i :: 0 <= i < |acts|
              && (Saw(Run(s0, acts[..i]), acts[i], m) || Promises(Run(s0, acts[..i]), acts[i], m))
  {
    hide Inv, Run, Saw, Promises;
    if forall i :: 0 <= i < |acts| ==>
         !Saw(Run(s0, acts[..i]), acts[i], m) && !Promises(Run(s0, acts[..i]), acts[i], m)
    {
      StillWaking(s0, acts, m, k);
    }
  }

  // ---------- who calls p_wake

  function AfterSpawn(wake: bool): Pc {
    if wake then WakeIdle(ToTask) else Running
  }

  /** M m has put t into runnext of its P p and the old runnext at the end of the ring, and is at pc. */
  predicate Queued(s: World, s2: World, m: MId, p: PId, t: Task, pc: Pc)
    requires m in s.ms && p < |s.ps|
  {
    && s2.ms == s.ms[m := s.ms[m].(pc := pc)] && |s2.ps| == |s.ps|
    && s2.ps[p].next == Some(t)
    && s2.ps[p].ring == (if s.ps[p].next.Some? then s.ps[p].ring + [s.ps[p].next.value] else s.ps[p].ring)
    && s2.idle == s.idle && s2.midle == s.midle && s2.nmspinning == s.nmspinning && s2.gq == s.gq
  }

  /** The first step of sched_spawn. */
  lemma SpawnSwaps(s: World, m: MId, p: PId, t: Task, wake: bool)
    requires Ready(s, m, p) && s.ms[m].pc.Running? && (t !in s.place || t in s.ps[p].free)
    ensures var s2, was := Step(s, Spawn(m, t, wake)), s.ps[p].next;
      && s2.ms == s.ms[m := s.ms[m].(pc := if was.Some? then SpawnPut(was.value, wake) else AfterSpawn(wake))]
      && |s2.ps| == |s.ps| && s2.ps[p].next == Some(t) && s2.ps[p].ring == s.ps[p].ring
      && s2.idle == s.idle && s2.midle == s.midle && s2.nmspinning == s.nmspinning && s2.gq == s.gq
  {
    hide Inv, Step, Moved;
    NoPanic(s);
    SpawnIs(s, Spawn(m, t, wake), p);
    StepKept(s, Spawn(m, t, wake));
    NoPanic(Step(s, Spawn(m, t, wake)));
  }

  /** And the second, when there was a runnext and there is room for it in the ring. */
  lemma SpawnPuts(s: World, m: MId, p: PId, t: Task, wake: bool)
    requires Ready(s, m, p) && s.ms[m].pc == SpawnPut(t, wake) && |s.ps[p].ring| < 256
    ensures var s2 := Step(s, Go(m));
      && s2.ms == s.ms[m := s.ms[m].(pc := AfterSpawn(wake))]
      && |s2.ps| == |s.ps| && s2.ps[p].next == s.ps[p].next && s2.ps[p].ring == s.ps[p].ring + [t]
      && s2.idle == s.idle && s2.midle == s.midle && s2.nmspinning == s.nmspinning && s2.gq == s.gq
  {
    OwnerOf(s, m, p);
    hide Inv, Step, Moved;
    NoPanic(s);
    GoIs(s, m, p);
  }

  /** sched_spawn alone, up to its call of p_wake, if it makes one. */
  lemma SpawnQueues(s: World, m: MId, p: PId, t: Task, wake: bool) returns (acts: seq<Action>)
    requires Ready(s, m, p) && s.ms[m].pc.Running? && (t !in s.place || t in s.ps[p].free)
    requires s.ps[p].next.Some? ==> |s.ps[p].ring| < 256
    ensures By(acts, m) && acts != [] && acts[0] == Spawn(m, t, wake) && Inv(Run(s, acts))
    ensures Queued(s, Run(s, acts), m, p, t, AfterSpawn(wake))
  {
    hide Inv, Step, Run;
    SpawnSwaps(s, m, p, t, wake);
    Nothing(s, m);
    Then(s, [], Spawn(m, t, wake));
    acts := [Spawn(m, t, wake)];
    assert [] + acts == acts;
    if s.ps[p].next.Some? {
      var s1 := Run(s, acts);
      SpawnPuts(s1, m, p, s.ps[p].next.value, wake);
      Then(s, acts, Go(m));
      acts := acts + [Go(m)];
    }
  }

  /**
   A spawn that nobody interferes with, with an idle P and no M spinning, makes the new task the next to run
   here, and gets an M started for the idle P; the running task goes on.
   */
  lemma SpawnGetsHelp(s: World, m: MId, p: PId, t: Task, newM: MId) returns (acts: seq<Action>, n: MId)
    requires Ready(s, m, p) && s.ms[m].pc.Running? && (t !in s.place || t in s.ps[p].free)
    requires s.ps[p].next.Some? ==> |s.ps[p].ring| < 256
    requires s.idle != [] && s.nmspinning == 0 && newM !in s.ms
    ensures By(acts, m) && acts != [] && acts[0] == Spawn(m, t, true)
    ensures var s2 := Run(s, acts);
      && n != m && m in s2.ms && n in s2.ms && s2.ms[m] == s.ms[m] && |s2.ps| == |s.ps| && s2.ps[p].next == Some(t)
      && s2.ms[n].nextp == Some(s.idle[0]) && (s2.ms[n].pc.Woken? || s2.ms[n].pc.Starting?)
  {
    hide Inv, Run;
    var first := SpawnQueues(s, m, p, t, true);
    var rest;
    rest, n := WakeWorks(s, first, m, ToTask, newM);
    acts := first + rest;
  }

  /** The two steps of m_resetspinning. */
  lemma ResetSteps(s: World, m: MId, p: PId, t: Task, inherit: bool)
    requires m in s.ms && s.ms[m].p == Some(p) && p < |s.ps| && p < |s.holder| && !s.panicked
    ensures s.ms[m].pc == Got(t, inherit) && s.ms[m].spinning ==>
      Step(s, Go(m)) == Local(s, m, s.ms[m].(pc := ResetDown(t, inherit), spinning := false), s.nmspinning)
    ensures s.ms[m].pc == ResetDown(t, inherit) && s.nmspinning > 0 ==>
      Step(s, Go(m)) == Local(s, m, s.ms[m].(pc := WakeIdle(ToExec(t, inherit))), s.nmspinning - 1)
  {
    hide Step;
    GoIs(s, m, p);
  }

  /** m_resetspinning, up to its call of p_wake. */
  lemma ResetCounts(s: World, m: MId, p: PId, t: Task, inherit: bool) returns (acts: seq<Action>)
    requires Ready(s, m, p) && s.ms[m].pc == Got(t, inherit) && s.ms[m].spinning && s.nmspinning > 0
    ensures By(acts, m)
    ensures Run(s, acts) ==
      Local(s, m, s.ms[m].(pc := WakeIdle(ToExec(t, inherit)), spinning := false), s.nmspinning - 1)
  {
    OwnerOf(s, m, p);
    hide Inv, Step, Run, By;
    NoPanic(s);
    Nothing(s, m);
    var x1 := s.ms[m].(pc := ResetDown(t, inherit), spinning := false);
    ResetSteps(s, m, p, t, inherit);
    ResetSteps(Local(s, m, x1, s.nmspinning), m, p, t, inherit);
    LocalLocal(s, m, x1, s.nmspinning, x1.(pc := WakeIdle(ToExec(t, inherit))), s.nmspinning - 1);
    acts := Onward(s, [], m, Go(m), s);
    acts := Onward(s, acts, m, Go(m), Local(s, m, x1, s.nmspinning));
  }

  /**
   The last spinning M that finds work, with a P still idle, gets another M started in its place before it
   runs what it found.
   */
  lemma ResetGetsHelp(s: World, m: MId, p: PId, t: Task, inherit: bool, newM: MId)
      returns (acts: seq<Action>, n: MId)
    requires Ready(s, m, p) && s.ms[m].pc == Got(t, inherit) && s.ms[m].spinning
    requires s.idle != [] && s.nmspinning == 1 && newM !in s.ms
    ensures By(acts, m)
    ensures var s2 := Run(s, acts);
      && n != m && m in s2.ms && n in s2.ms && s2.ms[m] == s.ms[m].(pc := Exec(t, inherit), spinning := false)
      && s2.ms[n].nextp == Some(s.idle[0]) && (s2.ms[n].pc.Woken? || s2.ms[n].pc.Starting?)
  {
    hide Inv, Run;
    var first := ResetCounts(s, m, p, t, inherit);
    var rest;
    rest, n := WakeWorks(s, first, m, ToExec(t, inherit), newM);
    acts := first + rest;
  }
}

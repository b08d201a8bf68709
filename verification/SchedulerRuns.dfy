/**
 Runs of module Scheduler: whatever the Ms do, in whatever order, no task is lost or duplicated, the
 spinning counter is exact, and none of the scheduler's panics and assertions can be reached.
 */
module SchedulerRuns {
  import opened Base
  import GlobalQueue
  import opened Scheduler
  import opened SchedulerInv

  // ---------- one step

  lemma TokenCounted(s: World, m: MId)
    requires SpinOk(s) && m in s.ms && Unit(s.ms[m]) == 1
    ensures s.nmspinning >= 1
  {
    assert m in Tokens(s.ms);
  }

  lemma Moves(s: World, m: MId, y: Mach, n: int)
    requires Inv(s) && m in s.ms && SameLinks(s.ms[m], y) && MachOk(y) && !MustBeEmpty(y)
    requires n == s.nmspinning + Unit(y) - Unit(s.ms[m])
    ensures Inv(Local(s, m, y, n))
  {
    hide Inv, SameLinks, MachOk, Unit, Local;
    LocalStepKept(s, m, y, n);
  }

  lemma ScheduleKept(s: World, m: MId, p: PId)
    requires Ready(s, m, p) && s.ms[m].pc.Sched?
    ensures Inv(ScheduleStep(s, m, p))
  {
    var x := s.ps[p];
    assert s.ms[m].spinning ==> x.ring == [] && x.next.None?;
    hide Tasks, Procs, ParkedOk, SpinOk, TakeGlobal, TakeLocal;
    if x.tick % 61 == 0 && s.gqSize > 0 {
      TakeGlobalKept(s, m, p, 1);
    } else if x.next.Some? || x.ring != [] {
      TakeLocalKept(s, m, p);
    } else {
      LocalStepKept(s, m, s.ms[m].(pc := Find), s.nmspinning);
    }
  }

  lemma FindKept(s: World, m: MId, p: PId, giveUp: bool)
    requires Ready(s, m, p) && s.ms[m].pc.Find?
    ensures Inv(FindStep(s, m, p, giveUp))
  {
    var x := s.ps[p];
    hide Tasks, Procs, ParkedOk, SpinOk, TakeGlobal, TakeLocal;
    if x.next.Some? || x.ring != [] {
      TakeLocalKept(s, m, p);
    } else if s.gqSize > 0 {
      TakeGlobalKept(s, m, p, 0);
    } else if s.ms[m].spinning {
      LocalStepKept(s, m, s.ms[m].(pc := Stealing), s.nmspinning);
    } else if giveUp {
      LocalStepKept(s, m, s.ms[m].(pc := Stop), s.nmspinning);
    } else {
      LocalStepKept(s, m, s.ms[m].(pc := SpinUp, spinning := true), s.nmspinning);
    }
  }

  /** m_resetspinning, and a task in hand of an M that is not spinning. */
  lemma ResetMach(x: Mach, y: Mach)
    requires MachOk(x)
    requires match x.pc
      case ReSpin => y == x.(pc := Find)
      case Got(t, inherit) => y == if x.spinning then x.(pc := ResetDown(t, inherit), spinning := false)
                                   else x.(pc := Exec(t, inherit))
      case ResetDown(t, inherit) => y == x.(pc := WakeIdle(ToExec(t, inherit)))
      case _ => false
    ensures SameLinks(x, y) && MachOk(y) && !MustBeEmpty(y)
    ensures x.pc.ResetDown? ==> Unit(x) == 1 && Unit(y) == 0
    ensures x.pc.ReSpin? ==> Unit(x) == 0 && Unit(y) == 1
    ensures x.pc.Got? ==> Unit(x) == Unit(y)
  {
  }

  lemma ResettingKept(s: World, m: MId)
    requires Inv(s) && m in s.ms && (s.ms[m].pc.ReSpin? || s.ms[m].pc.Got? || s.ms[m].pc.ResetDown?)
    ensures Inv(SpinStep(s, m))
  {
    var x := s.ms[m];
    MachOf(s, m);
    if x.pc.ResetDown? { TokenCounted(s, m); }
    hide Inv, MachOk, SameLinks, MustBeEmpty, Unit, Tokens;
    var s2 := SpinStep(s, m);
    var y := s2.ms[m];
    ResetMach(x, y);
    assert s2 == Local(s, m, y, s2.nmspinning);
    hide SpinStep;
    Moves(s, m, y, s2.nmspinning);
  }

  /** The steps that mark an M spinning or not, and count it. */
  lemma SpinningKept(s: World, m: MId)
    requires Inv(s) && m in s.ms
    ensures Inv(SpinStep(s, m))
  {
    hide Inv;
    match s.ms[m].pc
    case SpinUp => SpinUpKept(s, m);
    case ReSpin => ResettingKept(s, m);
    case Got(_, _) => ResettingKept(s, m);
    case ResetDown(_, _) => ResettingKept(s, m);
    case _ =>
  }

  lemma MachOf(s: World, m: MId)
    requires MachsOk(s) && m in s.ms
    ensures MachOk(s.ms[m])
  {
  }

  lemma SpinUpKept(s: World, m: MId)
    requires Inv(s) && m in s.ms && s.ms[m].pc.SpinUp?
    ensures Inv(SpinStep(s, m))
  {
    hide Tasks, Procs, ParkedOk, SpinOk;
    LocalStepKept(s, m, s.ms[m].(pc := Stealing), s.nmspinning + 1);
  }

  lemma WakeMach(x: Mach, y: Mach, k: Cont)
    requires MachOk(x) && y == x.(pc := y.pc)
    requires x.pc == WakeIdle(k) || x.pc == WakeSpin(k) || x.pc == WakeCas(k) || x.pc == WakeUndo(k)
    requires y.pc == Return(k) || y.pc == WakeSpin(k) || y.pc == WakeCas(k) || y.pc == WakeStart(k)
    ensures SameLinks(x, y) && MachOk(y) && !MustBeEmpty(y)
    ensures Unit(x) == (if x.pc.WakeUndo? then 1 else 0) && Unit(y) == (if y.pc.WakeStart? then 1 else 0)
  {
  }

  lemma WakeOnKept(s: World, m: MId)
    requires Inv(s) && m in s.ms && (s.ms[m].pc.WakeIdle? || s.ms[m].pc.WakeSpin? || s.ms[m].pc.WakeCas?)
    ensures Inv(WakeStep(s, m))
  {
    var x := s.ms[m];
    MachOf(s, m);
    hide Inv, MachOk, SameLinks, MustBeEmpty, Unit;
    var s2 := WakeStep(s, m);
    var y := s2.ms[m];
    WakeMach(x, y, x.pc.k);
    assert s2 == Local(s, m, y, s2.nmspinning);
    assert s2.nmspinning == s.nmspinning + (if y.pc.WakeStart? then 1 else 0);
    hide WakeStep;
    Moves(s, m, y, s2.nmspinning);
  }

  lemma WakeUndoKept(s: World, m: MId)
    requires Inv(s) && m in s.ms && s.ms[m].pc.WakeUndo?
    ensures Inv(WakeStep(s, m))
  {
    var x := s.ms[m];
    var y := x.(pc := Return(x.pc.k));
    MachOf(s, m);
    WakeMach(x, y, x.pc.k);
    TokenCounted(s, m);
    hide Inv, MachOk, SameLinks, MustBeEmpty, Unit, Tokens, Return;
    assert WakeStep(s, m) == Local(s, m, y, s.nmspinning - 1);
    hide WakeStep;
    Moves(s, m, y, s.nmspinning - 1);
  }

  /** p_wake up to p_startm, and its retreat when there is no idle P. */
  lemma WakeKept(s: World, m: MId)
    requires Inv(s) && m in s.ms
    ensures Inv(WakeStep(s, m))
  {
    hide Inv;
    match s.ms[m].pc
    case WakeIdle(_) => WakeOnKept(s, m);
    case WakeSpin(_) => WakeOnKept(s, m);
    case WakeCas(_) => WakeOnKept(s, m);
    case WakeUndo(_) => WakeUndoKept(s, m);
    case _ =>
  }

  lemma StartKept(s: World, m: MId, k: Cont)
    requires Inv(s) && m in s.ms && s.ms[m].pc == WakeStart(k)
    ensures Inv(StartStep(s, m, k))
  {
    if s.idle == [] {
      MachOf(s, m);
      hide Tasks, Procs, ParkedOk, MachsOk;
      Moves(s, m, s.ms[m].(pc := WakeUndo(k)), s.nmspinning);
    } else if s.midle == [] {
      hide Inv, StartStep;
      StartNewKept(s, m, k);
    } else {
      hide Inv, StartStep;
      StartIdleKept(s, m, k);
    }
  }

  lemma OwnedKept(s: World, m: MId, p: PId)
    requires Ready(s, m, p) && p < |s.holder|
    ensures Inv(OwnedStep(s, m, p))
  {
    hide Inv, ScheduleStep, StopStep, StartStep, HandStep, ExecStep, SpinStep, WakeStep, PutStep;
    match s.ms[m].pc
    case Sched => ScheduleKept(s, m, p);
    case SpinUp => SpinningKept(s, m);
    case ReSpin => SpinningKept(s, m);
    case Got(_, _) => SpinningKept(s, m);
    case ResetDown(_, _) => SpinningKept(s, m);
    case Stop => StopKept(s, m, p);
    case WakeIdle(_) => WakeKept(s, m);
    case WakeSpin(_) => WakeKept(s, m);
    case WakeCas(_) => WakeKept(s, m);
    case WakeUndo(_) => WakeKept(s, m);
    case WakeStart(k) => StartKept(s, m, k);
    case WakeHand(k, nm, q) => HandKept(s, m, k, nm, q);
    case Exec(_, _) => ExecKept(s, m, p);
    case SpawnPut(t, wake) => PutKept(s, m, p, t, if wake then WakeIdle(ToTask) else Running);
    case YieldPut(t) => PutKept(s, m, p, t, Sched);
    case _ =>
  }

  lemma ReleasedMach(x: Mach, y: Mach)
    requires MachOk(x)
    requires if x.pc.AfterRelease? then
        y == (if x.spinning then x.(pc := SpinDown, spinning := false) else x.(pc := Recheck(false)))
      else x.pc.SpinDown? && y == x.(pc := Recheck(true))
    ensures SameLinks(x, y) && MachOk(y) && !MustBeEmpty(y)
    ensures x.pc.AfterRelease? ==> Unit(x) == Unit(y)
    ensures x.pc.SpinDown? ==> Unit(x) == 1 && Unit(y) == 0
  {
  }

  lemma ReleasedKept(s: World, m: MId)
    requires Inv(s) && m in s.ms && (s.ms[m].pc.AfterRelease? || s.ms[m].pc.SpinDown?)
    ensures Inv(LooseStep(s, m))
  {
    var x := s.ms[m];
    MachOf(s, m);
    hide Tasks, Procs, ParkedOk, MachsOk, MachOk, SameLinks, MustBeEmpty, Unit, Tokens;
    if x.pc.AfterRelease? {
      var y := if x.spinning then x.(pc := SpinDown, spinning := false) else x.(pc := Recheck(false));
      ReleasedMach(x, y);
      Moves(s, m, y, s.nmspinning);
    } else {
      var y := x.(pc := Recheck(true));
      ReleasedMach(x, y);
      TokenCounted(s, m);
      Moves(s, m, y, s.nmspinning - 1);
    }
  }

  lemma LooseKept(s: World, m: MId)
    requires Inv(s) && m in s.ms
    ensures Inv(LooseStep(s, m))
  {
    var x := s.ms[m];
    MachOf(s, m);
    hide Inv, RecheckStep, Arrive;
    match x.pc
    case AfterRelease => ReleasedKept(s, m);
    case SpinDown => ReleasedKept(s, m);
    case Recheck(was) => RecheckKept(s, m, was);
    case Park => ParkKept(s, m);
    case Woken => ArriveKept(s, m);
    case Starting => ArriveKept(s, m);
    case _ =>
  }

  lemma GoKept(s: World, m: MId)
    requires Inv(s) && m in s.ms
    ensures Inv(GoStep(s, m))
  {
    hide Tasks, MachsOk, ParkedOk, SpinOk, OwnedStep, LooseStep;
    var x := s.ms[m];
    if x.p.Some? {
      OwnerOf(s, m, x.p.value);
      hide Procs;
      OwnedKept(s, m, x.p.value);
    } else {
      hide Procs;
      LooseKept(s, m);
    }
  }

  lemma GiveUpKept(s: World, m: MId)
    requires Inv(s) && m in s.ms
    ensures Inv(Step(s, GiveUp(m)))
  {
    hide Tasks, ParkedOk, Procs, SpinOk;
    var x := s.ms[m];
    if x.pc.Stealing? {
      LocalStepKept(s, m, x.(pc := Stop), s.nmspinning);
    } else if x.pc.Recheck? {
      LocalStepKept(s, m, x.(pc := Park), s.nmspinning);
    }
  }

  lemma StepKept(s: World, a: Action)
    requires Inv(s)
    ensures Inv(Step(s, a))
  {
    hide Tasks, ParkedOk, SpinOk, GoStep, FindStep, StealStep, SpawnStep, YieldStep, ExitStep,
         RefillStep, SpillStep;
    if a.m in s.ms {
      var x := s.ms[a.m];
      if x.p.Some? { OwnerOf(s, a.m, x.p.value); }
      hide Procs;
      match a
      case Go(m) => GoKept(s, m);
      case CreateM(m, nm) => if x.pc.WakeNew? && nm !in s.ms { CreateKept(s, m, nm); }
      case GiveUp(m) => GiveUpKept(s, m);
      case FindWork(m, giveUp) => if x.pc.Find? { FindKept(s, m, x.p.value, giveUp); }
      case Steal(m, v, sn) =>
        if x.pc.Stealing? && v < |s.ps| && v != x.p.value { StealKept(s, m, x.p.value, v, sn); }
      case Spawn(m, t, wake) => if x.pc.Running? { SpawnKept(s, m, x.p.value, t, wake); }
      case Yield(m) => if x.pc.Running? { YieldKept(s, m, x.p.value); }
      case Exit(m, pool) => if x.pc.Running? { ExitKept(s, m, x.p.value, pool); }
      case Refill(m, ts) => if x.pc.Running? { FreeKept(s, m, x.p.value, ts, true); }
      case Spill(m, ts) => if x.pc.Sched? && !x.spinning { FreeKept(s, m, x.p.value, ts, false); }
    }
  }

  // ---------- which step it is

  lemma NoPanic(s: World)
    requires Inv(s)
    ensures !s.panicked
  {
  }

  lemma GoIs(s: World, m: MId, own: PId)
    requires m in s.ms && s.ms[m].p == Some(own) && own < |s.ps| && own < |s.holder| && !s.panicked
    ensures Step(s, Go(m)) == OwnedStep(s, m, own)
  {
    hide OwnedStep;
  }

  lemma FindIs(s: World, a: Action, own: PId)
    requires a.m in s.ms && s.ms[a.m].p == Some(own) && own < |s.ps| && a.FindWork? && !s.panicked
    ensures Step(s, a) == if s.ms[a.m].pc.Find? then FindStep(s, a.m, own, a.giveUp) else s
  {
    hide FindStep;
  }

  lemma SpawnIs(s: World, a: Action, own: PId)
    requires a.m in s.ms && s.ms[a.m].p == Some(own) && own < |s.ps| && a.Spawn? && !s.panicked
    ensures Step(s, a) == if s.ms[a.m].pc.Running? then SpawnStep(s, a.m, own, a.t, a.wake) else s
  {
    hide SpawnStep;
  }

  lemma LooseIs(s: World, m: MId)
    requires m in s.ms && s.ms[m].p.None? && !s.panicked
    ensures Step(s, Go(m)) == LooseStep(s, m)
  {
    hide LooseStep;
  }

  // ---------- free tasks

  /** A task that exits is dead, and free on the P it ran on if it is pooled; its M goes back to schedule. */
  lemma ExitGoes(s: World, m: MId, p: PId, t: Task, pool: bool)
    requires Ready(s, m, p) && s.ms[m].pc.Running? && s.ms[m].curt == Some(t)
    ensures var s2 := Step(s, Exit(m, pool));
      && InPlace(s2, t, if pool then InFree(p) else Retired) && t in s2.status && s2.status[t] == TDead
      && m in s2.ms && s2.ms[m] == s.ms[m].(pc := Sched, curt := None)
  {
    NoPanic(s);
    RunningReady(s, m);
    hide Inv, Moved;
  }

  /** A batch of free tasks goes from the global list to a P, or back. */
  lemma FreeGoes(s: World, m: MId, p: PId, ts: set<Task>)
    requires Ready(s, m, p)
    ensures s.ms[m].pc.Running? && ts <= s.gfree ==>
      var s2 := Step(s, Refill(m, ts));
      s2.gfree == s.gfree - ts && |s2.ps| == |s.ps| && s2.ps[p].free == s.ps[p].free + ts
    ensures s.ms[m].pc.Sched? && !s.ms[m].spinning && ts <= s.ps[p].free ==>
      var s2 := Step(s, Spill(m, ts));
      s2.gfree == s.gfree + ts && |s2.ps| == |s.ps| && s2.ps[p].free == s.ps[p].free - ts
  {
    NoPanic(s);
    hide Inv, Moved;
  }

  // ---------- runs

  /** s_procresize pushes the Ps with the last one first. */
  function IdleAtStart(n: nat): seq<PId>
    requires n > 0
  {
    seq(n - 1, (i: nat) => i + 1)
  }

  /**
   After sched_init with n Ps and the sched_spawn of the main task: M 0 has P 0, the others are idle.
   `waiting` is what s_procresize has left in the global queue.
   */
  function StartWorld(n: nat, main: Task, waiting: seq<Task>): World
    requires n > 0
  {
    World(
      seq(n, i => Proc([], if i == 0 then Some(main) else None, {}, 0, i == 0, if i == 0 then Some(0) else None)),
      map[0 := Mach(Sched, Some(0), false, None, None)],
      waiting, |waiting|, {}, {},
      IdleAtStart(n), (set p | p in IdleAtStart(n)), n - 1, [],
      0, (map t | t in waiting :: TRunnable)[main := TRunnable],
      false,
      (map t | t in waiting :: InGlobal)[main := InNext(0)], seq(n, i => if i == 0 then Owner(0) else Idle))
  }

  function Run(s: World, acts: seq<Action>): World {
    if acts == [] then s else Step(Run(s, acts[..|acts| - 1]), acts[|acts| - 1])
  }

  lemma StartTasks(n: nat, main: Task, waiting: seq<Task>)
    requires n > 0 && NoDup(waiting) && main !in waiting
    ensures Tasks(StartWorld(n, main, waiting))
  {
    var s := StartWorld(n, main, waiting);
    forall t: Task, q: Place
      ensures InPlace(s, t, q) <==> (t == main && q == InNext(0)) || (t in waiting && q == InGlobal) { }
  }

  lemma StartProcs(n: nat, main: Task, waiting: seq<Task>)
    requires n > 0
    ensures Procs(StartWorld(n, main, waiting))
  {
    var s := StartWorld(n, main, waiting);
    forall p: PId, h: Holder ensures Holds(s, p, h) <==> p < |s.holder| && s.holder[p] == h {
      if 1 <= p < n { assert s.idle[p - 1] == p; }
    }
  }

  lemma StartInv(n: nat, main: Task, waiting: seq<Task>)
    requires n > 0 && NoDup(waiting) && main !in waiting
    ensures Inv(StartWorld(n, main, waiting))
  {
    StartTasks(n, main, waiting);
    StartProcs(n, main, waiting);
    hide Tasks, Procs;
    assert Tokens(StartWorld(n, main, waiting).ms) == {};
  }

  /** From any state in order, so from the start with any tasks waiting in the global queue. */
  lemma {:induction false} RunKept(s0: World, acts: seq<Action>)
    requires Inv(s0)
    ensures Inv(Run(s0, acts))
  {
    hide Inv;
    if acts != [] {
      RunKept(s0, acts[..|acts| - 1]);
      StepKept(Run(s0, acts[..|acts| - 1]), acts[|acts| - 1]);
    }
  }

  lemma TakesRemember(s: World, m: MId, p: PId, max: nat)
    requires m in s.ms && p < |s.ps|
    ensures TakeGlobal(s, m, p, max).status == s.status
    ensures s.ps[p].next.Some? || s.ps[p].ring != [] ==> TakeLocal(s, m, p).status == s.status
  {
    hide GlobalQueue.Batch, Moved;
  }

  lemma ScheduleRemembers(s: World, m: MId, p: PId)
    requires m in s.ms && p < |s.ps| && p < |s.holder|
    ensures ScheduleStep(s, m, p).status == s.status && StopStep(s, m, p).status == s.status
  {
    hide TakeGlobal, TakeLocal;
    TakesRemember(s, m, p, 0);
    TakesRemember(s, m, p, 1);
  }

  lemma WakeRemembers(s: World, m: MId)
    requires m in s.ms
    ensures SpinStep(s, m).status == s.status && WakeStep(s, m).status == s.status
  {
    hide Return;
  }

  lemma StartRemembers(s: World, m: MId, k: Cont, nm: MId, q: PId)
    requires m in s.ms
    ensures StartStep(s, m, k).status == s.status && HandStep(s, m, k, nm, q).status == s.status
  {
    hide Return;
  }

  lemma OwnedRemembers(s: World, m: MId, p: PId)
    requires m in s.ms && p < |s.ps| && p < |s.holder|
    ensures OwnedStep(s, m, p).status.Keys == s.status.Keys
  {
    ScheduleRemembers(s, m, p);
    WakeRemembers(s, m);
    hide ScheduleStep, StopStep, SpinStep, WakeStep, StartStep, HandStep;
    match s.ms[m].pc
    case WakeStart(k) => StartRemembers(s, m, k, 0, 0);
    case WakeHand(k, nm, q) => StartRemembers(s, m, k, nm, q);
    case _ =>
  }

  lemma GoRemembers(s: World, m: MId)
    requires m in s.ms
    ensures GoStep(s, m).status.Keys == s.status.Keys
  {
    hide OwnedStep;
    var x := s.ms[m];
    if x.p.Some? && x.p.value < |s.ps| && x.p.value < |s.holder| { OwnedRemembers(s, m, x.p.value); }
  }

  /** Only a spawn adds a task, and no step drops one. */
  lemma StepRemembers(s: World, a: Action)
    ensures Step(s, a).status.Keys == s.status.Keys
         || (a.Spawn? && Step(s, a).status.Keys == s.status.Keys + {a.t})
  {
    hide GoStep, GlobalQueue.Batch, Moved;
    if a.m in s.ms { GoRemembers(s, a.m); }
  }

  /** The tasks spawned by a run. */
  function Spawned(acts: seq<Action>): set<Task> {
    set a | a in acts && a.Spawn? :: a.t
  }

  lemma {:induction false} RunRemembers(s: World, acts: seq<Action>)
    ensures s.status.Keys <= Run(s, acts).status.Keys <= s.status.Keys + Spawned(acts)
  {
    hide Step;
    if acts != [] {
      var init, a := acts[..|acts| - 1], acts[|acts| - 1];
      RunRemembers(s, init);
      StepRemembers(Run(s, init), a);
      assert Spawned(init) <= Spawned(acts);
      assert a in acts;
    }
  }

  lemma RunThree(s: World, a: Action, b: Action, c: Action)
    ensures Run(s, [a]) == Step(s, a) && Run(s, [a, b, c]) == Step(Step(Step(s, a), b), c)
  {
    assert [a, b, c][..2] == [a, b] && [a, b][..1] == [a] && [a][..0] == [];
    assert Run(s, []) == s && Run(s, [a]) == Step(s, a) && Run(s, [a, b]) == Step(Step(s, a), b);
  }

  /** M 0 takes the task in runnext of P 0 and executes it. */
  lemma NextRuns(s: World, t: Task)
    requires s.ms == map[0 := Mach(Sched, Some(0), false, None, None)] && |s.ps| > 0 && |s.holder| > 0
    requires s.ps[0].next == Some(t) && s.gqSize == 0 && s.status == map[t := TRunnable] && !s.panicked
    ensures var s2 := Step(Step(Step(s, Go(0)), Go(0)), Go(0));
      s2.ms == map[0 := Mach(Running, Some(0), false, Some(t), None)] && s2.status == map[t := TRunning]
  {
    hide Moved;
    var s1 := Step(s, Go(0));
    assert s1 == TakeLocal(s, 0, 0);
    assert s1.ms[0] == Mach(Got(t, true), Some(0), false, None, None);
    assert Step(s1, Go(0)) == SetPc(s1, 0, Exec(t, true));
  }

  lemma MainStarts(n: nat, main: Task)
    requires n > 0
    ensures var s := Run(StartWorld(n, main, []), [Go(0), Go(0), Go(0)]);
      s.ms == map[0 := Mach(Running, Some(0), false, Some(main), None)] && s.status == map[main := TRunning]
  {
    hide Run, Step;
    RunThree(StartWorld(n, main, []), Go(0), Go(0), Go(0));
    NextRuns(StartWorld(n, main, []), main);
  }

  /** With tasks waiting in the global queue the first one comes before the main task. */
  lemma WaitingFirst(n: nat, main: Task, waiting: seq<Task>)
    requires n > 0 && waiting != []
    ensures var s := Run(StartWorld(n, main, waiting), [Go(0)]);
      0 in s.ms && s.ms[0].pc == Got(waiting[0], false) && s.gq == waiting[1..]
  {
    RunThree(StartWorld(n, main, waiting), Go(0), Go(0), Go(0));
    hide Run;
    assert GlobalQueue.Batch(|waiting|, n, 1) == 1;
  }

  // ---------- what holds in every reachable state

  /**
   Every task is in exactly one place with the status schedimpl.h documents for it, and the tasks are
   those of the start and the spawned ones, none forgotten.
   */
  lemma EveryTaskInOnePlace(s0: World, acts: seq<Action>, t: Task)
    requires Inv(s0)
    ensures var s := Run(s0, acts);
      && s0.status.Keys <= s.status.Keys <= s0.status.Keys + Spawned(acts)
      && (t in s.status ==> exists q :: InPlace(s, t, q) && s.status[t] == StatusIn(s, t, q)
                                         && forall q2 :: InPlace(s, t, q2) ==> q2 == q)
      && (t !in s.status ==> forall q :: !InPlace(s, t, q))
  {
    var s := Run(s0, acts);
    RunKept(s0, acts);
    RunRemembers(s0, acts);
    hide Run, TaskOf, StatusIn, Procs, MachsOk, ParkedOk, SpinOk, QueuesOk;
    if t in s.status {
      assert InPlace(s, t, s.place[t]);
    }
  }

  /** A running task is the current one of exactly one M, and that M has a P. */
  lemma RunningHasMachine(s0: World, acts: seq<Action>, t: Task)
    requires Inv(s0)
    ensures var s := Run(s0, acts);
      t in s.status && s.status[t] == TRunning <==>
        exists m :: m in s.ms && s.ms[m].curt == Some(t) && s.ms[m].p.Some? && TaskOf(s.ms[m]) == Some(t)
  {
    var s := Run(s0, acts);
    RunKept(s0, acts);
    hide Run, Procs, ParkedOk, SpinOk, QueuesOk;
    if t in s.status && s.status[t] == TRunning {
      var q := s.place[t];
      assert InPlace(s, t, q) && q.InHand?;
      assert s.ms[q.m].curt == Some(t) && MachOk(s.ms[q.m]);
    }
    if m :| m in s.ms && s.ms[m].curt == Some(t) && s.ms[m].p.Some? && TaskOf(s.ms[m]) == Some(t) {
      assert InPlace(s, t, InHand(m));
    }
  }

  /** No task is held by two Ms, and a queue holds a task at most once. */
  lemma NeverTwice(s0: World, acts: seq<Action>, m1: MId, m2: MId, t: Task)
    requires Inv(s0)
    ensures var s := Run(s0, acts);
      && (m1 in s.ms && m2 in s.ms && TaskOf(s.ms[m1]) == Some(t) && TaskOf(s.ms[m2]) == Some(t) ==> m1 == m2)
      && NoDup(s.gq) && s.gqSize == |s.gq|
      && forall p :: 0 <= p < |s.ps| ==> NoDup(s.ps[p].ring) && |s.ps[p].ring| <= 256
  {
    var s := Run(s0, acts);
    RunKept(s0, acts);
    hide Run, TaskOf, NoDup, Procs, MachsOk, ParkedOk, SpinOk;
    assert InPlace(s, t, InHand(m1)) && InPlace(s, t, InHand(m2)) ==> m1 == m2;
  }

  /**
   nmspinning is the number of Ms holding a spinning token, so it is never negative; and no panic or
   assertion of the modelled code can be reached.
   */
  lemma SpinningExact(s0: World, acts: seq<Action>)
    requires Inv(s0)
    ensures var s := Run(s0, acts);
      s.nmspinning == |Tokens(s.ms)| && s.nmspinning >= 0 && !s.panicked
  {
    RunKept(s0, acts);
    hide Run;
  }

  /** A spinning M is about to find its local queue empty. */
  lemma SpinningIsIdle(s0: World, acts: seq<Action>, m: MId)
    requires Inv(s0)
    ensures var s := Run(s0, acts);
      m in s.ms && s.ms[m].spinning && s.ms[m].pc.Sched? ==>
        && s.ms[m].p.Some? && s.ms[m].p.value < |s.ps|
        && s.ps[s.ms[m].p.value].ring == [] && s.ps[s.ms[m].p.value].next.None?
  {
    RunKept(s0, acts);
    var s := Run(s0, acts);
    hide Run, Tasks;
    if m in s.ms && s.ms[m].spinning && s.ms[m].pc.Sched? {
      OwnerOf(s, m, s.ms[m].p.value);
    }
  }

  /** A P is owned, idle, promised or in transit, never two of these; the idle list, counter and mask agree. */
  lemma OneHolder(s0: World, acts: seq<Action>, p: PId)
    requires Inv(s0)
    ensures var s := Run(s0, acts);
      && NoDup(s.idle) && s.npidle == |s.idle| && (p in s.idleMask <==> p in s.idle)
      && (p < |s.ps| ==> exists h :: Holds(s, p, h) && ProcOk(s.ps[p], h) && forall h2 :: Holds(s, p, h2) ==> h2 == h)
  {
    RunKept(s0, acts);
    var s := Run(s0, acts);
    hide Run, Tasks, NoDup, Carried, MachsOk, ParkedOk, SpinOk;
    if p < |s.ps| { assert Holds(s, p, s.holder[p]); }
  }

  /** t_casstatus in t_execute never waits: the task is runnable, and only this M has it. */
  lemma ExecuteNeverWaits(s0: World, acts: seq<Action>, m: MId)
    requires Inv(s0)
    ensures var s := Run(s0, acts);
      m in s.ms && s.ms[m].pc.Exec? ==> s.ms[m].pc.t in s.status && s.status[s.ms[m].pc.t] == TRunnable
  {
    RunKept(s0, acts);
    var s := Run(s0, acts);
    hide Run, Tasks, Procs, ParkedOk, SpinOk;
    if m in s.ms && s.ms[m].pc.Exec? { ExecReady(s, m); }
  }
}

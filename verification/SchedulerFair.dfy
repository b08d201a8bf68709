/**
 The global queue is not starved: a P that goes on starting time slices while tasks wait in the global
 queue takes one of them within 61 slices, whatever all the Ms do and wherever schedtick wraps.
 */
module SchedulerFair {
  import opened Base
  import GlobalQueue
  import Ring
  import opened Scheduler
  import opened SchedulerInv
  import opened SchedulerRuns
  import opened SchedulerProgress

  /** Action a is a pass of schedule on P p, up to its first test of the tick. */
  predicate Passes(s: World, p: PId, a: Action) {
    a.Go? && a.m in s.ms && s.ms[a.m].pc.Sched? && s.ms[a.m].p == Some(p)
  }

  /** Action a executes a task on P p that starts a time slice. */
  predicate StartsSlice(s: World, p: PId, a: Action) {
    a.Go? && a.m in s.ms && s.ms[a.m].pc.Exec? && !s.ms[a.m].pc.inherit && s.ms[a.m].p == Some(p)
  }

  /** How many time slices a run from s starts on P p. */
  function Slices(s: World, acts: seq<Action>, p: PId): nat {
    if acts == [] then 0
    else
      var init, a := acts[..|acts| - 1], acts[|acts| - 1];
      Slices(s, init, p) + if StartsSlice(Run(s, init), p, a) then 1 else 0
  }

  /** The M is running a task or has just stopped to: schedule has not tested the tick since it changed. */
  predicate Midway(pc: Pc) {
    pc.Sched? || pc.Running? || pc.SpawnPut? || pc.YieldPut? || WakeCont(pc) == Some(ToTask)
  }

  ghost predicate Tested(s: World, p: PId) {
    forall m :: m in s.ms && s.ms[m].p == Some(p) ==> !Midway(s.ms[m].pc)
  }

  // ---------- the tick

  predicate SameTicks(s: World, s2: World) {
    |s2.ps| == |s.ps| && forall i :: 0 <= i < |s.ps| ==> s2.ps[i].tick == s.ps[i].tick
  }

  lemma TakesTicks(s: World, m: MId, p: PId)
    requires m in s.ms && p < |s.ps|
    ensures SameTicks(s, TakeGlobal(s, m, p, 0)) && SameTicks(s, TakeGlobal(s, m, p, 1))
    ensures s.ps[p].next.Some? || s.ps[p].ring != [] ==> SameTicks(s, TakeLocal(s, m, p))
  {
    hide GlobalQueue.Batch, Moved;
  }

  lemma SearchTicks(s: World, m: MId, p: PId, giveUp: bool)
    requires m in s.ms && p < |s.ps| && p < |s.holder|
    ensures SameTicks(s, ScheduleStep(s, m, p)) && SameTicks(s, StopStep(s, m, p))
    ensures SameTicks(s, FindStep(s, m, p, giveUp))
  {
    hide TakeGlobal, TakeLocal;
    TakesTicks(s, m, p);
  }

  lemma WakeTicks(s: World, m: MId, k: Cont, n: MId, q: PId)
    requires m in s.ms
    ensures SameTicks(s, SpinStep(s, m)) && SameTicks(s, WakeStep(s, m)) && SameTicks(s, StartStep(s, m, k))
    ensures SameTicks(s, HandStep(s, m, k, n, q))
  {
    hide Return;
  }

  lemma PutTicks(s: World, m: MId, p: PId, t: Task, pc: Pc)
    requires m in s.ms && p < |s.ps|
    ensures SameTicks(s, PutStep(s, m, p, t, pc))
  {
  }

  lemma OwnedTicks(s: World, m: MId, p: PId)
    requires m in s.ms && p < |s.ps| && p < |s.holder| && !s.ms[m].pc.Exec?
    ensures SameTicks(s, OwnedStep(s, m, p))
  {
    hide ScheduleStep, StopStep, FindStep, SpinStep, WakeStep, StartStep, HandStep, PutStep, SameTicks;
    assert SameTicks(s, s) by { SameTicksSelf(s); }
    match s.ms[m].pc
    case Sched => SearchTicks(s, m, p, false);
    case Stop => SearchTicks(s, m, p, false);
    case WakeStart(k) => WakeTicks(s, m, k, 0, 0);
    case WakeHand(k, n, q) => WakeTicks(s, m, k, n, q);
    case SpawnPut(t, wake) => PutTicks(s, m, p, t, if wake then WakeIdle(ToTask) else Running);
    case YieldPut(t) => PutTicks(s, m, p, t, Sched);
    case _ => WakeTicks(s, m, ToTask, 0, 0);
  }

  lemma SameTicksSelf(s: World)
    ensures SameTicks(s, s)
  {
  }

  lemma LooseTicks(s: World, m: MId)
    requires m in s.ms
    ensures SameTicks(s, LooseStep(s, m))
  {
    hide RecheckStep, Arrive;
    match s.ms[m].pc
    case Recheck(was) => RecheckTicks(s, m, was);
    case Woken => if s.ms[m].nextp.Some? { ArriveTicks(s, m); }
    case Starting => if s.ms[m].nextp.Some? { ArriveTicks(s, m); }
    case _ =>
  }

  lemma AcquireTicks(s: World, m: MId, p: PId, next: Mach)
    requires m in s.ms
    ensures SameTicks(s, Acquire(s, m, p, next))
  {
  }

  lemma RecheckTicks(s: World, m: MId, was: bool)
    requires m in s.ms
    ensures SameTicks(s, RecheckStep(s, m, was))
  {
    if s.idle != [] {
      hide Acquire;
      AcquireTicks(IdleGet(s, m), m, s.idle[0],
                   if was then s.ms[m].(pc := ReSpin, spinning := true) else s.ms[m].(pc := Find));
    }
  }

  lemma ArriveTicks(s: World, m: MId)
    requires m in s.ms && s.ms[m].nextp.Some?
    ensures SameTicks(s, Arrive(s, m))
  {
    hide Acquire;
    var x := s.ms[m];
    AcquireTicks(s, m, x.nextp.value, if x.pc.Starting? then x.(pc := Sched, nextp := None, spinning := true)
                                      else x.(pc := Find, nextp := None));
  }

  lemma ChoiceTicks(s: World, a: Action)
    requires a.m in s.ms && !a.Go? && !a.FindWork?
    ensures SameTicks(s, Step(s, a))
  {
    hide Moved, Share, Return;
  }

  /** Only t_execute advances a tick, of its own P. */
  lemma StepTick(s: World, p: PId, a: Action)
    requires Inv(s) && p < |s.ps|
    ensures var s2 := Step(s, a);
      |s2.ps| == |s.ps| && s2.ps[p].tick == if StartsSlice(s, p, a) then Add32(s.ps[p].tick, 1) else s.ps[p].tick
  {
    hide Tasks, MachsOk, ParkedOk, SpinOk, OwnedStep, LooseStep, FindStep, CreateStep, StealStep, SpawnStep, YieldStep,
         ExitStep, RefillStep, SpillStep;
    if a.m in s.ms {
      var x := s.ms[a.m];
      if x.p.Some? { OwnerOf(s, a.m, x.p.value); }
      hide Procs;
      if a.Go? {
        if x.p.Some? && x.pc.Exec? {
          ExecTick(s, p, a.m);
        } else if x.p.Some? {
          OwnedTicks(s, a.m, x.p.value);
        } else {
          MachOf(s, a.m);
          LooseTicks(s, a.m);
        }
      } else if a.FindWork? {
        if x.p.Some? { SearchTicks(s, a.m, x.p.value, a.giveUp); }
      } else {
        ChoiceTicks(s, a);
      }
    }
  }

  lemma ExecTick(s: World, p: PId, m: MId)
    requires Inv(s) && p < |s.ps| && m in s.ms && s.ms[m].pc.Exec? && s.ms[m].p.Some? && s.ms[m].p.value < |s.ps|
    requires s.ms[m].p.value < |s.holder|
    ensures var q, s2 := s.ms[m].p.value, OwnedStep(s, m, s.ms[m].p.value);
      |s2.ps| == |s.ps| && m in s2.ms && s2.ms[m].pc.Running? && s2.ms[m].p == Some(q)
      && s2.ps[p].tick == if q == p && !s.ms[m].pc.inherit then Add32(s.ps[p].tick, 1) else s.ps[p].tick
  {
    MachOf(s, m);
    ExecReady(s, m);
    hide Tasks, Procs, MachsOk, ParkedOk, SpinOk;
  }

  // ---------- who has tested the tick

  lemma OneOwner(s: World, m1: MId, m2: MId, p: PId)
    requires Procs(s) && m1 in s.ms && m2 in s.ms && s.ms[m1].p == Some(p) && s.ms[m2].p == Some(p)
    ensures m1 == m2
  {
    OwnerOf(s, m1, p);
    OwnerOf(s, m2, p);
  }

  /** Before a time slice starts schedule has tested the tick; after that it has yet to do so. */
  lemma SliceTested(s: World, p: PId, a: Action)
    requires Inv(s) && p < |s.ps| && StartsSlice(s, p, a)
    ensures Tested(s, p) && !Tested(Step(s, a), p)
  {
    OwnerOf(s, a.m, p);
    ExecTick(s, p, a.m);
    forall m | m in s.ms && s.ms[m].p == Some(p) ensures !Midway(s.ms[m].pc) { OneOwner(s, m, a.m, p); }
    hide Tasks, Procs, MachsOk, ParkedOk, SpinOk, OwnedStep;
    assert Step(s, a).ms[a.m].pc.Running?;
  }

  /** An M with a task to return to is midway. */
  lemma CurtMidway(s: World, m: MId)
    requires MachsOk(s) && m in s.ms && s.ms[m].curt.Some?
    ensures Midway(s.ms[m].pc)
  {
    assert MachOk(s.ms[m]);
  }

  predicate SameTask(x: Mach, y: Mach) {
    y.p == x.p && y.curt == x.curt
  }

  lemma WakeSame(s: World, m: MId)
    requires m in s.ms
    ensures m in WakeStep(s, m).ms && SameTask(s.ms[m], WakeStep(s, m).ms[m])
  {
    hide Return;
    var s2 := WakeStep(s, m);
    assert m in s2.ms && s2.ms[m] == s.ms[m].(pc := s2.ms[m].pc);
    hide WakeStep;
  }

  lemma StartSame(s: World, m: MId, k: Cont)
    requires m in s.ms
    ensures m in StartStep(s, m, k).ms && SameTask(s.ms[m], StartStep(s, m, k).ms[m])
  {
  }

  lemma HandSame(s: World, m: MId, k: Cont, n: MId, q: PId)
    requires m in s.ms
    ensures m in HandStep(s, m, k, n, q).ms && SameTask(s.ms[m], HandStep(s, m, k, n, q).ms[m])
  {
    hide Return;
  }

  /** A step of an M that is midway, other than a pass of schedule. */
  lemma OwnedMidway(s: World, m: MId, p: PId)
    requires m in s.ms && Midway(s.ms[m].pc) && !s.ms[m].pc.Sched? && p < |s.ps| && p < |s.holder|
    ensures var s2 := OwnedStep(s, m, p);
      && m in s2.ms && SameTask(s.ms[m], s2.ms[m])
      && (s.ms[m].pc.YieldPut? ==> Midway(s2.ms[m].pc))
  {
    hide WakeStep, StartStep, HandStep, Return;
    match s.ms[m].pc
    case WakeStart(k) => StartSame(s, m, k);
    case WakeHand(k, n, q) => HandSame(s, m, k, n, q);
    case SpawnPut(_, _) =>
    case YieldPut(_) =>
    case _ => WakeSame(s, m);
  }

  lemma GoMidway(s: World, m: MId, p: PId)
    requires Inv(s) && m in s.ms && s.ms[m].p == Some(p) && Midway(s.ms[m].pc) && !s.ms[m].pc.Sched?
    ensures var s2 := Step(s, Go(m)); m in s2.ms && s2.ms[m].p == Some(p) && Midway(s2.ms[m].pc)
  {
    OwnerOf(s, m, p);
    MachOf(s, m);
    OwnedMidway(s, m, p);
    StepKept(s, Go(m));
    var s2 := Step(s, Go(m));
    assert s2 == OwnedStep(s, m, p);
    hide Tasks, Procs, ParkedOk, SpinOk, Step, OwnedStep;
    if !s.ms[m].pc.YieldPut? { CurtMidway(s2, m); }
  }

  /** The actions a running task chooses leave its M midway. */
  lemma ChoiceMidway(s: World, a: Action, p: PId)
    requires a.m in s.ms && s.ms[a.m].p == Some(p) && p < |s.ps| && Midway(s.ms[a.m].pc) && !a.Go? && !s.panicked
    requires s.ms[a.m].curt.Some? <==> !s.ms[a.m].pc.Sched? && !s.ms[a.m].pc.YieldPut?
    ensures var s2 := Step(s, a); a.m in s2.ms && s2.ms[a.m].p == Some(p) && Midway(s2.ms[a.m].pc)
  {
    hide Moved;
  }

  /** Only a pass of schedule tests the tick of a P. */
  lemma OnlyPassTests(s: World, p: PId, a: Action)
    requires Inv(s) && p < |s.ps| && !Tested(s, p) && !Passes(s, p, a)
    ensures !Tested(Step(s, a), p)
  {
    var m :| m in s.ms && s.ms[m].p == Some(p) && Midway(s.ms[m].pc);
    MachOf(s, m);
    hide Inv, Step;
    if a.m != m {
      OthersLeave(s, m, a);
    } else if a.Go? {
      GoMidway(s, m, p);
    } else {
      ChoiceMidway(s, a, p);
    }
    assert m in Step(s, a).ms && Step(s, a).ms[m].p == Some(p) && Midway(Step(s, a).ms[m].pc);
  }

  // ---------- runs

  /** Step i of a run is a pass of schedule on P p that takes the first task of the global queue. */
  ghost predicate TakesAt(s0: World, acts: seq<Action>, p: PId, i: nat) {
    && i < |acts| && Passes(Run(s0, acts[..i]), p, acts[i])
    && var s, s2 := Run(s0, acts[..i]), Step(Run(s0, acts[..i]), acts[i]);
    && s.gq != [] && s2.gq == s.gq[1..] && acts[i].m in s2.ms && s2.ms[acts[i].m].pc == Got(s.gq[0], false)
  }

  /** schedule takes from the global queue when the tick says so and a task is waiting. */
  lemma PassTakes(s: World, p: PId, a: Action)
    requires Inv(s) && p < |s.ps| && Passes(s, p, a) && s.ps[p].tick % 61 == 0 && s.gqSize > 0
    ensures var s2 := Step(s, a);
      s.gq != [] && s2.gq == s.gq[1..] && a.m in s2.ms && s2.ms[a.m].pc == Got(s.gq[0], false)
  {
    OwnerOf(s, a.m, p);
    MachOf(s, a.m);
    assert s.ms[a.m].spinning ==> s.ps[p].ring == [] && s.ps[p].next.None?;
    assert s.gqSize == |s.gq|;
    hide Tasks, Procs, MachsOk, ParkedOk, SpinOk;
    assert GlobalQueue.Batch(s.gqSize, |s.ps|, 1) == 1;
    hide Moved, GlobalQueue.Batch;
    assert Step(s, a) == TakeGlobal(s, a.m, p, 1);
  }

  /** The value of the tick of P p after j more time slices. */
  function TickIn(s: World, p: PId, j: nat): u32
    requires p < |s.ps|
  {
    Add32(s.ps[p].tick, j)
  }

  lemma TickInAdd(s: World, p: PId, j: nat, d: nat)
    requires p < |s.ps|
    ensures TickIn(s, p, j + d) == Add32(TickIn(s, p, j), d)
  {
  }

  /** The P has had its j-th tick of a run from s0 tested by schedule, when the run has come to s with k slices. */
  ghost predicate TestedIn(s0: World, s: World, p: PId, k: nat, j: nat) {
    (Tested(s0, p) ==> j > 0) && (j < k || (j == k && Tested(s, p)))
  }

  /** None of the tested ticks is one for the global queue. */
  ghost predicate NoTurn(s0: World, s: World, p: PId, k: nat)
    requires p < |s0.ps|
  {
    forall j: nat :: TestedIn(s0, s, p, k, j) ==> TickIn(s0, p, j) % 61 != 0
  }

  lemma NoTurnNext(s0: World, s: World, s2: World, p: PId, k: nat, starts: bool)
    requires p < |s0.ps| && NoTurn(s0, s, p, k)
    requires starts ==> Tested(s, p) && !Tested(s2, p)
    requires !starts && Tested(s2, p) ==> Tested(s, p) || TickIn(s0, p, k) % 61 != 0
    ensures NoTurn(s0, s2, p, k + if starts then 1 else 0)
  {
    hide Tested, TickIn;
    var k2 := k + if starts then 1 else 0;
    forall j: nat | TestedIn(s0, s2, p, k2, j) ensures TickIn(s0, p, j) % 61 != 0 {
      if j != k || Tested(s, p) { assert TestedIn(s0, s, p, k, j); }
    }
  }

  lemma NextSlice(s0: World, s: World, p: PId, a: Action, k: nat)
    requires Inv(s) && p < |s0.ps| && p < |s.ps| && s.ps[p].tick == TickIn(s0, p, k) && NoTurn(s0, s, p, k)
    requires Passes(s, p, a) ==> s.ps[p].tick % 61 != 0
    ensures var s2, k2 := Step(s, a), k + if StartsSlice(s, p, a) then 1 else 0;
      Inv(s2) && p < |s2.ps| && s2.ps[p].tick == TickIn(s0, p, k2) && NoTurn(s0, s2, p, k2)
  {
    hide Inv, Step, Tested, Passes, StartsSlice, TickIn, Add32, NoTurn;
    StepKept(s, a);
    StepTick(s, p, a);
    TickInAdd(s0, p, k, 1);
    if StartsSlice(s, p, a) { SliceTested(s, p, a); }
    else if !Passes(s, p, a) && !Tested(s, p) { OnlyPassTests(s, p, a); }
    NoTurnNext(s0, s, Step(s, a), p, k, StartsSlice(s, p, a));
  }

  /**
   Over a run in which no pass takes from the global queue although tasks wait there, the tick of P p
   counts its time slices, and no value of it that schedule has tested is a multiple of 61.
   */
  lemma {:induction false} NoneTaken(s0: World, acts: seq<Action>, p: PId)
    requires Inv(s0) && p < |s0.ps|
    requires forall i :: 0 <= i < |acts| ==> Run(s0, acts[..i]).gqSize > 0
    requires forall i: nat :: !TakesAt(s0, acts, p, i)
    ensures var s, k := Run(s0, acts), Slices(s0, acts, p);
      Inv(s) && p < |s.ps| && s.ps[p].tick == TickIn(s0, p, k) && NoTurn(s0, s, p, k)
  {
    hide Inv, Tested, Passes, StartsSlice, Step;
    if acts != [] {
      var last := |acts| - 1;
      var init, a := acts[..last], acts[last];
      forall i | 0 <= i < last ensures Run(s0, init[..i]).gqSize > 0 { assert init[..i] == acts[..i]; }
      forall i: nat ensures !TakesAt(s0, init, p, i) {
        assert !TakesAt(s0, acts, p, i);
        if i < last { assert init[..i] == acts[..i]; }
      }
      NoneTaken(s0, init, p);
      var s, k := Run(s0, init), Slices(s0, init, p);
      assert !TakesAt(s0, acts, p, last);
      if Passes(s, p, a) && s.ps[p].tick % 61 == 0 {
        PassTakes(s, p, a);
      }
      NextSlice(s0, s, p, a, k);
    }
  }

  /** 61 consecutive ticks have one for the global queue among them. */
  lemma TurnDue(s0: World, s: World, p: PId, k: nat)
    requires p < |s0.ps| && k >= 61 + if Tested(s0, p) then 1 else 0
    ensures !NoTurn(s0, s, p, k)
  {
    var b: nat := if Tested(s0, p) then 1 else 0;
    var d := GlobalQueue.SlicesLeft(TickIn(s0, p, b));
    TickInAdd(s0, p, b, d);
    hide TickIn, Add32, Tested, GlobalQueue.SlicesLeft;
    assert TestedIn(s0, s, p, k, b + d);
  }

  /**
   In any run from any state in order, with tasks waiting in the global queue all along, a P that starts
   61 time slices takes one of them: within 61 slices if it has yet to test its tick at the start of the
   run, within 62 if the first slice was about to start on a test made before.
   */
  lemma GlobalTurn(s0: World, acts: seq<Action>, p: PId)
    requires Inv(s0) && p < |s0.ps|
    requires forall i :: 0 <= i < |acts| ==> Run(s0, acts[..i]).gqSize > 0
    requires Slices(s0, acts, p) >= 61 + if Tested(s0, p) then 1 else 0
    ensures exists i: nat :: TakesAt(s0, acts, p, i)
  {
    TurnDue(s0, Run(s0, acts), p, Slices(s0, acts, p));
    hide Inv, Run, Tested, Slices, TakesAt, NoTurn;
    if forall i: nat :: !TakesAt(s0, acts, p, i) { NoneTaken(s0, acts, p); }
  }

  // ---------- fewer slices are not enough

  /** M 0 is about to schedule on P 0, whose only task is t; tasks wait in the global queue. */
  predicate Alone(s: World, t: Task, tick: u32) {
    && s.ms == map[0 := Mach(Sched, Some(0), false, None, None)] && |s.ps| > 0 && |s.holder| > 0
    && s.ps[0].ring == [t] && s.ps[0].next.None? && s.ps[0].tick == tick && s.gqSize > 0
    && t in s.status && s.status[t] == TRunnable && !s.panicked
  }

  /** The run acts from s0 has come to s with k slices on P 0, always passing over the global queue. */
  ghost predicate PassedOver(s0: World, acts: seq<Action>, s: World, k: nat) {
    && Run(s0, acts) == s && Slices(s0, acts, 0) == k
    && (forall i :: 0 <= i <= |acts| ==> Run(s0, acts[..i]).gqSize > 0)
    && (forall i: nat :: !TakesAt(s0, acts, 0, i))
  }

  lemma PassOn(s0: World, acts: seq<Action>, s: World, k: nat, a: Action, s2: World, k2: nat)
    requires PassedOver(s0, acts, s, k) && Step(s, a) == s2 && s2.gq == s.gq && s2.gqSize > 0
    requires k2 == k + if StartsSlice(s, 0, a) then 1 else 0
    ensures PassedOver(s0, acts + [a], s2, k2)
  {
    hide Step;
    var acts2 := acts + [a];
    assert acts2[..|acts|] == acts;
    forall i | 0 <= i <= |acts2| ensures Run(s0, acts2[..i]).gqSize > 0 {
      if i <= |acts| { assert acts2[..i] == acts[..i]; } else { assert acts2[..i] == acts2; }
    }
    forall i: nat ensures !TakesAt(s0, acts2, 0, i) {
      assert !TakesAt(s0, acts, 0, i);
      if i < |acts| { assert acts2[..i] == acts[..i]; }
    }
  }

  /** The task runs for one slice and yields. */
  lemma AloneCycle(s0: World, acts: seq<Action>, s: World, k: nat, t: Task, tick: u32)
      returns (acts2: seq<Action>, s2: World)
    requires PassedOver(s0, acts, s, k) && Alone(s, t, tick) && tick % 61 != 0
    ensures PassedOver(s0, acts2, s2, k + 1) && Alone(s2, t, Add32(tick, 1)) && s2.gq == s.gq
  {
    hide PassedOver, Moved, Add32;
    var s1 := TakeLocal(s, 0, 0);
    assert Step(s, Go(0)) == s1;
    PassOn(s0, acts, s, k, Go(0), s1, k);
    var s3 := SetPc(s1, 0, Exec(t, false));
    assert Step(s1, Go(0)) == s3;
    PassOn(s0, acts + [Go(0)], s1, k, Go(0), s3, k);
    acts2, s2 := AloneRuns(s0, acts + [Go(0)] + [Go(0)], s3, k, t, tick);
  }

  lemma AloneRuns(s0: World, acts: seq<Action>, s: World, k: nat, t: Task, tick: u32)
      returns (acts2: seq<Action>, s2: World)
    requires PassedOver(s0, acts, s, k) && s.ms == map[0 := Mach(Exec(t, false), Some(0), false, None, None)]
    requires |s.ps| > 0 && |s.holder| > 0 && s.ps[0].ring == [] && s.ps[0].next.None? && s.ps[0].tick == tick
    requires s.gqSize > 0 && t in s.status && s.status[t] == TRunnable && !s.panicked
    ensures PassedOver(s0, acts2, s2, k + 1) && Alone(s2, t, Add32(tick, 1)) && s2.gq == s.gq
  {
    hide PassedOver, Moved, Add32;
    var s1 := ExecStep(s, 0, 0, t, false);
    assert Step(s, Go(0)) == s1;
    PassOn(s0, acts, s, k, Go(0), s1, k + 1);
    acts2, s2 := AloneYields(s0, acts + [Go(0)], s1, k + 1, t, Add32(tick, 1));
  }

  lemma AloneYields(s0: World, acts: seq<Action>, s: World, k: nat, t: Task, tick: u32)
      returns (acts2: seq<Action>, s2: World)
    requires PassedOver(s0, acts, s, k) && s.ms == map[0 := Mach(Running, Some(0), false, Some(t), None)]
    requires |s.ps| > 0 && |s.holder| > 0 && s.ps[0].ring == [] && s.ps[0].next.None? && s.ps[0].tick == tick
    requires s.gqSize > 0 && t in s.status && s.status[t] == TRunning && !s.panicked
    ensures PassedOver(s0, acts2, s2, k) && Alone(s2, t, tick) && s2.gq == s.gq
  {
    hide PassedOver, Moved;
    var s1 := YieldStep(s, 0, t);
    assert Step(s, Yield(0)) == s1;
    PassOn(s0, acts, s, k, Yield(0), s1, k);
    s2 := PutStep(s1, 0, 0, t, Sched);
    assert Step(s1, Go(0)) == s2;
    acts2 := acts + [Yield(0)] + [Go(0)];
    PassOn(s0, acts + [Yield(0)], s1, k, Go(0), s2, k);
  }

  lemma {:induction false} AloneCycles(s0: World, t: Task, n: nat) returns (acts: seq<Action>, s: World)
    requires Alone(s0, t, 1) && n <= 60
    ensures PassedOver(s0, acts, s, n) && Alone(s, t, 1 + n)
  {
    if n == 0 {
      acts, s := [], s0;
    } else {
      acts, s := AloneCycles(s0, t, n - 1);
      hide PassedOver, Alone;
      acts, s := AloneCycle(s0, acts, s, n - 1, t, n);
    }
  }

  /** A start in which the main task has yielded once. */
  function AloneWorld(n: nat, main: Task, waiting: seq<Task>): World
    requires n > 0
  {
    var s := StartWorld(n, main, waiting);
    s.(ps := s.ps[0 := Proc([main], None, {}, 1, true, Some(0))], place := s.place[main := InRing(0)])
  }

  lemma AloneTasks(n: nat, main: Task, waiting: seq<Task>)
    requires n > 0 && NoDup(waiting) && main !in waiting
    ensures Tasks(AloneWorld(n, main, waiting))
  {
    var s := AloneWorld(n, main, waiting);
    forall t: Task, q: Place
      ensures InPlace(s, t, q) <==> (t == main && q == InRing(0)) || (t in waiting && q == InGlobal) { }
  }

  lemma AloneStart(n: nat, main: Task, waiting: seq<Task>)
    requires n > 0 && NoDup(waiting) && main !in waiting && waiting != []
    ensures Inv(AloneWorld(n, main, waiting)) && Alone(AloneWorld(n, main, waiting), main, 1)
  {
    var s0, s := StartWorld(n, main, waiting), AloneWorld(n, main, waiting);
    AloneTasks(n, main, waiting);
    StartProcs(n, main, waiting);
    forall p: PId, h: Holder ensures Holds(s, p, h) <==> Holds(s0, p, h) { }
    hide Tasks, Holds, IdleAtStart;
    assert Tokens(s.ms) == {};
  }

  /** Sixty slices are not enough, even if the tick has yet to be tested when they begin. */
  lemma SixtyCanPass(n: nat, main: Task, waiting: seq<Task>) returns (s0: World, acts: seq<Action>)
    requires n > 0 && NoDup(waiting) && main !in waiting && waiting != []
    ensures Inv(s0) && 0 < |s0.ps| && !Tested(s0, 0) && Slices(s0, acts, 0) == 60
    ensures forall i :: 0 <= i < |acts| ==> Run(s0, acts[..i]).gqSize > 0
    ensures forall i: nat :: !TakesAt(s0, acts, 0, i)
  {
    s0 := AloneWorld(n, main, waiting);
    AloneStart(n, main, waiting);
    assert 0 in s0.ms && s0.ms[0].p == Some(0) && Midway(s0.ms[0].pc);
    var s;
    acts, s := AloneCycles(s0, main, 60);
    hide Slices, Run, TakesAt, AloneWorld, Inv;
  }
}

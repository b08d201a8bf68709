/**
 A task taken from a queue is run: the M that has it needs nothing from the other Ms, whatever they do
 in between.
 */
module SchedulerProgress {
  import opened Base
  import GlobalQueue
  import Ring
  import opened Scheduler
  import opened SchedulerInv
  import opened SchedulerRuns

  /** M x has taken t to run it, and is not putting it, or another task, into its ring. */
  predicate Took(x: Mach, t: Task) {
    TaskOf(x) == Some(t) && !x.pc.SpawnPut? && !x.pc.YieldPut?
  }

  /** M x holds t and is not running it yet, or not again after a spawn. */
  predicate Carries(x: Mach, t: Task) {
    Took(x, t) && !x.pc.Running?
  }

  predicate Runs(s: World, m: MId, t: Task) {
    && m in s.ms && s.ms[m].pc.Running? && s.ms[m].curt == Some(t)
    && t in s.status && s.status[t] == TRunning
  }

  /** At most how many steps of its own an M with a task in hand is away from running it. */
  function Left(pc: Pc): nat {
    match pc
    case Got(_, _) => 8
    case ResetDown(_, _) => 7
    case WakeIdle(_) => 6
    case WakeSpin(_) => 5
    case WakeCas(_) => 4
    case WakeStart(_) => 3
    case WakeUndo(_) => 2
    case WakeHand(_, _, _) => 2
    case WakeNew(_, _) => 2
    case Exec(_, _) => 1
    case _ => 0
  }

  lemma LeftAtMost(pc: Pc)
    ensures Left(pc) <= 8
  {
  }

  /** Action a is the next step of M m. */
  predicate Due(s: World, m: MId, a: Action) {
    && m in s.ms
    && if s.ms[m].pc.WakeNew? then a.CreateM? && a.m == m && a.nm !in s.ms else a == Go(m)
  }

  /** M x has moved on to y, still with t in hand. */
  predicate Nearer(x: Mach, y: Mach, t: Task) {
    Left(y.pc) < Left(x.pc) && Took(y, t)
  }

  // ---------- the steps of the M itself

  lemma SpinNearer(s: World, m: MId, t: Task)
    requires SpinOk(s) && m in s.ms && MachOk(s.ms[m]) && Carries(s.ms[m], t)
    requires s.ms[m].pc.Got? || s.ms[m].pc.ResetDown?
    ensures m in SpinStep(s, m).ms && Nearer(s.ms[m], SpinStep(s, m).ms[m], t)
  {
    if s.ms[m].pc.ResetDown? { TokenCounted(s, m); }
  }

  lemma WakeNearer(s: World, m: MId, t: Task)
    requires SpinOk(s) && m in s.ms && MachOk(s.ms[m]) && Carries(s.ms[m], t)
    requires s.ms[m].pc.WakeIdle? || s.ms[m].pc.WakeSpin? || s.ms[m].pc.WakeCas? || s.ms[m].pc.WakeUndo?
    ensures m in WakeStep(s, m).ms && Nearer(s.ms[m], WakeStep(s, m).ms[m], t)
  {
    if s.ms[m].pc.WakeUndo? { TokenCounted(s, m); }
  }

  lemma StartMach(x: Mach, y: Mach, k: Cont, t: Task)
    requires x.pc == WakeStart(k) && TaskOf(x) == Some(t) && y == x.(pc := y.pc)
    requires match y.pc
      case WakeUndo(k2) => k2 == k
      case WakeNew(k2, _) => k2 == k
      case WakeHand(k2, _, _) => k2 == k
      case _ => false
    ensures Nearer(x, y, t)
  {
  }

  lemma StartNearer(s: World, m: MId, t: Task, k: Cont)
    requires ParkedOk(s) && m in s.ms && Carries(s.ms[m], t) && s.ms[m].pc == WakeStart(k)
    ensures m in StartStep(s, m, k).ms && Nearer(s.ms[m], StartStep(s, m, k).ms[m], t)
  {
    if s.midle != [] { assert s.midle[0] in s.midle; }
    hide ParkedOk, Left, TaskOf;
    var x := s.ms[m];
    var pc2 := if s.idle == [] then WakeUndo(k) else if s.midle == [] then WakeNew(k, s.idle[0])
               else WakeHand(k, s.midle[0], s.idle[0]);
    assert StartStep(s, m, k).ms[m] == x.(pc := pc2);
    hide StartStep;
    StartMach(x, x.(pc := pc2), k, t);
  }

  lemma HandNearer(s: World, m: MId, t: Task, k: Cont, n: MId, p: PId)
    requires Procs(s) && ParkedOk(s) && MachsOk(s) && m in s.ms && Carries(s.ms[m], t)
    requires s.ms[m].pc == WakeHand(k, n, p)
    ensures m in HandStep(s, m, k, n, p).ms && Nearer(s.ms[m], HandStep(s, m, k, n, p).ms[m], t)
  {
    CarriedOf(s, m, p);
    MachOf(s, n);
    assert s.ms[n].pc == Claimed(m);
    hide Procs, ParkedOk, MachsOk;
  }

  lemma ExecNearer(s: World, m: MId, p: PId, t: Task, r: Task, inherit: bool)
    requires Tasks(s) && m in s.ms && p < |s.ps| && Carries(s.ms[m], t) && s.ms[m].pc == Exec(r, inherit)
    requires s.ms[m].curt.None?
    ensures m in ExecStep(s, m, p, r, inherit).ms && Nearer(s.ms[m], ExecStep(s, m, p, r, inherit).ms[m], t)
  {
    ExecReady(s, m);
    hide Tasks;
  }

  lemma OwnedNearer(s: World, m: MId, p: PId, t: Task)
    requires Ready(s, m, p) && p < |s.holder| && Carries(s.ms[m], t) && !s.ms[m].pc.WakeNew?
    ensures m in OwnedStep(s, m, p).ms && Nearer(s.ms[m], OwnedStep(s, m, p).ms[m], t)
  {
    MachOf(s, m);
    hide Tasks, Procs, MachsOk, ParkedOk, SpinOk, StartStep, HandStep, SpinStep, WakeStep, ScheduleStep, StopStep,
         ExecStep, Nearer;
    match s.ms[m].pc
    case Got(_, _) => SpinNearer(s, m, t);
    case ResetDown(_, _) => SpinNearer(s, m, t);
    case WakeStart(k) => StartNearer(s, m, t, k);
    case WakeHand(k, n, q) => HandNearer(s, m, t, k, n, q);
    case Exec(r, inherit) => ExecNearer(s, m, p, t, r, inherit);
    case _ => WakeNearer(s, m, t);
  }

  /** The next step of an M with a task in hand brings it nearer. */
  lemma DueNearer(s: World, m: MId, t: Task, a: Action)
    requires Inv(s) && m in s.ms && Carries(s.ms[m], t) && Due(s, m, a)
    ensures m in Step(s, a).ms && Nearer(s.ms[m], Step(s, a).ms[m], t)
  {
    MachOf(s, m);
    if !s.ms[m].pc.WakeNew? {
      OwnerOf(s, m, s.ms[m].p.value);
      OwnedNearer(s, m, s.ms[m].p.value, t);
      hide Tasks, Procs, MachsOk, ParkedOk, SpinOk, OwnedStep, Nearer;
    } else {
      hide Tasks, Procs, MachsOk, ParkedOk, SpinOk;
      CreateNearer(s, m, t, a.nm);
      hide CreateStep, Nearer;
    }
  }

  lemma CreateNearer(s: World, m: MId, t: Task, n: MId)
    requires m in s.ms && n !in s.ms && s.ms[m].pc.WakeNew? && Carries(s.ms[m], t)
    ensures m in CreateStep(s, m, n).ms && Nearer(s.ms[m], CreateStep(s, m, n).ms[m], t)
  {
  }

  // ---------- the steps of the others, and actions of the M it is not ready for

  predicate Untouched(s: World, s2: World, m: MId) {
    m in s.ms ==> m in s2.ms && s2.ms[m] == s.ms[m]
  }

  lemma TakesLeave(s: World, c: MId, p: PId, m: MId)
    requires c in s.ms && p < |s.ps| && c != m
    ensures Untouched(s, TakeGlobal(s, c, p, 0), m) && Untouched(s, TakeGlobal(s, c, p, 1), m)
    ensures s.ps[p].next.Some? || s.ps[p].ring != [] ==> Untouched(s, TakeLocal(s, c, p), m)
  {
    hide GlobalQueue.Batch, Moved;
  }

  lemma SearchLeaves(s: World, c: MId, p: PId, m: MId, giveUp: bool)
    requires c in s.ms && p < |s.ps| && p < |s.holder| && c != m
    ensures Untouched(s, ScheduleStep(s, c, p), m) && Untouched(s, StopStep(s, c, p), m)
    ensures Untouched(s, FindStep(s, c, p, giveUp), m)
  {
    hide TakeGlobal, TakeLocal;
    TakesLeave(s, c, p, m);
  }

  lemma WakesLeave(s: World, c: MId, m: MId)
    requires c in s.ms && c != m
    ensures Untouched(s, SpinStep(s, c), m) && Untouched(s, WakeStep(s, c), m)
  {
    hide Return;
  }

  /** p_startm takes an M off the idle list, and hands its P to the M it has taken. */
  lemma StartLeaves(s: World, c: MId, k: Cont, m: MId)
    requires ParkedOk(s) && c in s.ms && s.ms[c].pc == WakeStart(k) && c != m && m in s.ms && !s.ms[m].pc.Parked?
    ensures Untouched(s, StartStep(s, c, k), m)
  {
    if s.idle != [] && s.midle != [] { assert s.midle[0] in s.midle; }
    hide ParkedOk;
  }

  lemma HandLeaves(s: World, c: MId, k: Cont, n: MId, q: PId, m: MId)
    requires ParkedOk(s) && c in s.ms && s.ms[c].pc == WakeHand(k, n, q) && c != m && m in s.ms && !s.ms[m].pc.Claimed?
    ensures Untouched(s, HandStep(s, c, k, n, q), m)
  {
    assert s.ms[n].pc == Claimed(c);
    hide ParkedOk;
  }

  lemma OwnedLeaves(s: World, c: MId, p: PId, m: MId)
    requires ParkedOk(s) && c in s.ms && p < |s.ps| && p < |s.holder| && c != m
    requires m in s.ms && !s.ms[m].pc.Parked? && !s.ms[m].pc.Claimed?
    ensures Untouched(s, OwnedStep(s, c, p), m)
  {
    SearchLeaves(s, c, p, m, false);
    WakesLeave(s, c, m);
    hide ParkedOk, ScheduleStep, StopStep, FindStep, SpinStep, WakeStep, StartStep, HandStep;
    match s.ms[c].pc
    case WakeStart(k) => StartLeaves(s, c, k, m);
    case WakeHand(k, n, q) => HandLeaves(s, c, k, n, q, m);
    case _ =>
  }

  lemma LooseLeaves(s: World, c: MId, m: MId)
    requires c in s.ms && c != m
    ensures Untouched(s, LooseStep(s, c), m)
  {
  }

  lemma GoLeaves(s: World, c: MId, m: MId)
    requires ParkedOk(s) && c in s.ms && c != m
    requires m in s.ms && !s.ms[m].pc.Parked? && !s.ms[m].pc.Claimed?
    ensures Untouched(s, GoStep(s, c), m)
  {
    hide ParkedOk, OwnedStep, LooseStep;
    LooseLeaves(s, c, m);
    var x := s.ms[c];
    if x.p.Some? && x.p.value < |s.ps| && x.p.value < |s.holder| { OwnedLeaves(s, c, x.p.value, m); }
  }

  /** What an M with a P can do to another by an action of its choice: nothing. */
  lemma ChoicesLeave(s: World, a: Action, p: PId, m: MId)
    requires a.m in s.ms && a.m != m && p < |s.ps| && s.ms[a.m].p == Some(p)
    requires !a.Go? && !a.FindWork?
    ensures Untouched(s, Step(s, a), m)
  {
    hide Moved, Share, Return;
  }

  lemma LooseChoicesLeave(s: World, a: Action, m: MId)
    requires a.m in s.ms && a.m != m && s.ms[a.m].p.None? && !a.Go?
    ensures Untouched(s, Step(s, a), m)
  {
    hide FindStep, StealStep, SpawnStep, YieldStep, ExitStep, RefillStep, SpillStep, Return;
  }

  /** No other M touches an M that is neither parked nor being handed a P. */
  lemma OthersLeave(s: World, m: MId, a: Action)
    requires Inv(s) && a.m != m && m in s.ms && !s.ms[m].pc.Parked? && !s.ms[m].pc.Claimed?
    ensures Untouched(s, Step(s, a), m)
  {
    hide Tasks, MachsOk, SpinOk, ParkedOk, GoStep, FindStep, CreateStep, StealStep, SpawnStep, YieldStep, ExitStep,
         RefillStep, SpillStep;
    if a.m in s.ms {
      var x := s.ms[a.m];
      if a.Go? {
        GoLeaves(s, a.m, m);
      } else if x.p.Some? {
        OwnerOf(s, a.m, x.p.value);
        hide Procs, Untouched;
        if a.FindWork? { SearchLeaves(s, a.m, x.p.value, m, a.giveUp); }
        else { ChoicesLeave(s, a, x.p.value, m); }
      } else {
        LooseChoicesLeave(s, a, m);
      }
    }
  }

  /** Any other action named for M m does nothing while it has a task in hand. */
  lemma NotDueStays(s: World, m: MId, t: Task, a: Action)
    requires Inv(s) && a.m == m && m in s.ms && Carries(s.ms[m], t) && !Due(s, m, a)
    ensures Untouched(s, Step(s, a), m)
  {
    MachOf(s, m);
    hide Tasks, Procs, MachsOk, SpinOk, ParkedOk;
  }

  lemma {:induction false} StaysOrNearer(s: World, m: MId, t: Task, a: Action)
    requires Inv(s) && m in s.ms && Carries(s.ms[m], t)
    ensures m in Step(s, a).ms && Took(Step(s, a).ms[m], t)
    ensures if Due(s, m, a) then Nearer(s.ms[m], Step(s, a).ms[m], t) else Step(s, a).ms[m] == s.ms[m]
  {
    MachOf(s, m);
    hide Inv, Step, Nearer;
    if Due(s, m, a) { DueNearer(s, m, t, a); }
    else if a.m == m { NotDueStays(s, m, t, a); }
    else { OthersLeave(s, m, a); }
  }

  // ---------- runs

  /** How many of the steps of a run from s are due steps of M m. */
  function OwnSteps(s: World, acts: seq<Action>, m: MId): nat {
    if acts == [] then 0
    else
      var init, a := acts[..|acts| - 1], acts[|acts| - 1];
      OwnSteps(s, init, m) + if Due(Run(s, init), m, a) then 1 else 0
  }

  /** An M at Running with t is running it. */
  lemma RunningRuns(s: World, m: MId, t: Task)
    requires Inv(s) && m in s.ms && Took(s.ms[m], t)
    ensures if s.ms[m].pc.Running? then Runs(s, m, t) else Carries(s.ms[m], t) && Left(s.ms[m].pc) > 0
  {
    MachOf(s, m);
    assert InPlace(s, t, InHand(m));
    hide Procs, MachsOk, SpinOk, ParkedOk, QueuesOk;
  }

  /** Until M m runs t it keeps t, and each of its own steps brings it nearer. */
  lemma {:induction false} HeldOnTheWay(s: World, acts: seq<Action>, m: MId, t: Task)
    requires Inv(s) && m in s.ms && Took(s.ms[m], t)
    requires forall i :: 0 <= i <= |acts| ==> !Runs(Run(s, acts[..i]), m, t)
    ensures var s2 := Run(s, acts);
      && Inv(s2) && m in s2.ms && Carries(s2.ms[m], t)
      && 0 < Left(s2.ms[m].pc) <= Left(s.ms[m].pc) - OwnSteps(s, acts, m)
  {
    hide Inv, Step, Runs, Left, Carries;
    if acts == [] {
      assert acts[..0] == acts;
      RunningRuns(s, m, t);
    } else {
      var init, a := acts[..|acts| - 1], acts[|acts| - 1];
      forall i | 0 <= i <= |init| ensures !Runs(Run(s, init[..i]), m, t) { assert init[..i] == acts[..i]; }
      HeldOnTheWay(s, init, m, t);
      var s1 := Run(s, init);
      StepKept(s1, a);
      StaysOrNearer(s1, m, t, a);
      assert acts[..|acts|] == acts;
      RunningRuns(Step(s1, a), m, t);
    }
  }

  /**
   A task an M has taken gets run by that M: after at most eight steps of its own, whatever steps the
   other Ms take before, between and after them.
   */
  lemma TakenIsRun(s0: World, before: seq<Action>, acts: seq<Action>, m: MId, t: Task)
    requires Inv(s0)
    requires var s := Run(s0, before); m in s.ms && Took(s.ms[m], t)
    requires OwnSteps(Run(s0, before), acts, m) >= 8
    ensures var s := Run(s0, before);
      exists i :: 0 <= i <= |acts| && Runs(Run(s, acts[..i]), m, t)
  {
    var s := Run(s0, before);
    RunKept(s0, before);
    LeftAtMost(s.ms[m].pc);
    hide Inv, Run, Runs, Left, OwnSteps, Carries, Took;
    if forall i :: 0 <= i <= |acts| ==> !Runs(Run(s, acts[..i]), m, t) { HeldOnTheWay(s, acts, m, t); }
  }

  lemma ClaimerHands(s: World, c: MId, m: MId)
    requires Inv(s) && m in s.ms && s.ms[m].pc == Claimed(c)
    ensures c in s.ms && s.ms[c].pc.WakeHand? && s.ms[c].pc.nm == m && s.ms[c].pc.p < |s.ps|
    ensures var p, s1 := s.ms[c].pc.p, Step(s, Go(c));
      && m in s1.ms && s1.ms[m].pc.Woken? && s1.ms[m].nextp == Some(p) && s1.ms[m].p.None? && s1.ms[m].spinning
  {
    var k, p := s.ms[c].pc.k, s.ms[c].pc.p;
    CarriedOf(s, c, p);
    OwnerOf(s, c, s.ms[c].p.value);
    MachOf(s, m);
    hide Tasks, Procs, MachsOk, ParkedOk, SpinOk;
    assert Step(s, Go(c)) == HandStep(s, c, k, m, p);
  }

  lemma WokenArrives(s: World, m: MId, p: PId)
    requires Inv(s) && m in s.ms && s.ms[m].pc.Woken? && s.ms[m].nextp == Some(p) && s.ms[m].p.None?
    ensures var s2 := Step(s, Go(m));
      && m in s2.ms && s2.ms[m].pc.Find? && s2.ms[m].p == Some(p) && s2.ms[m].spinning == s.ms[m].spinning
      && p < |s2.ps| && s2.ps[p].m == Some(m) && s2.ps[p].running
  {
    PromiseOf(s, m);
    hide Tasks, Procs, MachsOk, ParkedOk, SpinOk;
    assert Step(s, Go(m)) == Arrive(s, m);
  }

  lemma HandedP(s: World, c: MId, m: MId)
    requires Inv(s) && m in s.ms && s.ms[m].pc == Claimed(c)
    ensures c in s.ms && s.ms[c].pc.WakeHand? && s.ms[c].pc.nm == m
    ensures var p, s2 := s.ms[c].pc.p, Step(Step(s, Go(c)), Go(m));
      && m in s2.ms && s2.ms[m].pc.Find? && s2.ms[m].p == Some(p) && s2.ms[m].spinning
      && p < |s2.ps| && s2.ps[p].m == Some(m) && s2.ps[p].running
  {
    hide Inv, Step;
    ClaimerHands(s, c, m);
    StepKept(s, Go(c));
    WokenArrives(Step(s, Go(c)), m, s.ms[c].pc.p);
  }

  /**
   An M that p_startm has taken off the idle list is always waiting for an M that is about to hand it a
   P; the next step of each gives it that P, to look for work with it, spinning.
   */
  lemma ClaimedGetsP(s0: World, acts: seq<Action>, m: MId)
    requires Inv(s0)
    ensures var s := Run(s0, acts);
      m in s.ms && s.ms[m].pc.Claimed? ==>
        var c := s.ms[m].pc.claimer;
        && c in s.ms && s.ms[c].pc.WakeHand? && s.ms[c].pc.nm == m
        && var p, s2 := s.ms[c].pc.p, Step(Step(s, Go(c)), Go(m));
        && m in s2.ms && s2.ms[m].pc.Find? && s2.ms[m].p == Some(p) && s2.ms[m].spinning
        && p < |s2.ps| && s2.ps[p].m == Some(m) && s2.ps[p].running
  {
    var s := Run(s0, acts);
    RunKept(s0, acts);
    hide Run;
    if m in s.ms && s.ms[m].pc.Claimed? { HandedP(s, s.ms[m].pc.claimer, m); }
  }
}

/**
 The run queues in module Scheduler: every step changes the ring and runnext of a P by one of the
 operations that module RunqRefines proves the lock-free queue to have. So tasks are added at the end of a
 ring only, by its owner, and two tasks in one ring leave it in the order in which they entered it.
 */
module SchedulerQueues {
  import opened Base
  import GlobalQueue
  import R = RunqRefines
  import opened Scheduler
  import opened SchedulerInv
  import opened SchedulerRuns

  function QueueOf(s: World, p: PId): R.Queue
    requires p < |s.ps|
  {
    R.Queue(s.ps[p].ring, s.ps[p].next)
  }

  // ---------- what a step should do to a queue

  /** p_runqget: runnext, or else the first of the ring. */
  function Getting(q: R.Queue): R.Op {
    if q.next.Some? then R.ClearNext else if q.ring != [] then R.TakeFirst(1) else R.Same
  }

  /** How many tasks s_runqget takes from the global queue. */
  function Globals(s: World, max: nat): nat {
    if s.ps == [] then 0 else GlobalQueue.Batch(|s.gq|, |s.ps|, max)
  }

  /** s_runqget: all but the first of its batch go to the local queue, in order. */
  function Fetching(s: World, max: nat): R.Op {
    var n := Globals(s, max);
    if 0 < n <= |s.gq| then R.Append(s.gq[1..n]) else R.Same
  }

  /** p_runqput with the task to go in hand. */
  function Putting(q: R.Queue, t: Task): R.Op {
    if |q.ring| < 256 then R.Append([t]) else R.Same
  }

  /** p_runqsteal of n tasks of queue v, or with n == 0 of its runnext, as its owner sees it. */
  function Losing(v: R.Queue, n: nat): R.Op {
    if 0 < n <= Share(|v.ring|) then R.TakeFirst(n) else if n == 0 && v.next.Some? then R.ClearNext else R.Same
  }

  /** p_runqsteal as the thief's own queue sees it: the last of the batch is run, the others queued in order. */
  function Winning(v: R.Queue, n: nat): R.Op {
    if 0 < n <= Share(|v.ring|) then R.Append(v.ring[..n - 1]) else R.Same
  }

  /** The M of action a is stealing from P v into its own P p. */
  predicate Steals(s: World, a: Action, p: PId, v: PId) {
    && a.Steal? && a.victim == v && a.m in s.ms && s.ms[a.m].pc.Stealing? && s.ms[a.m].p == Some(p)
    && p != v && p < |s.ps| && v < |s.ps| && v !in s.idleMask
  }

  /** What action a does to the queue of the P p that its M has. */
  function OwnOp(s: World, a: Action, p: PId): R.Op
    requires a.m in s.ms && p < |s.ps|
  {
    var q := QueueOf(s, p);
    match s.ms[a.m].pc
    case Sched => if !a.Go? then R.Same else if s.ps[p].tick % 61 == 0 && s.gq != [] then Fetching(s, 1) else Getting(q)
    case Find => if !a.FindWork? then R.Same else if Getting(q).Same? then Fetching(s, 0) else Getting(q)
    case Stop => if a.Go? then Fetching(s, 0) else R.Same
    case Stealing => if a.Steal? && Steals(s, a, p, a.victim) then Winning(QueueOf(s, a.victim), a.n) else R.Same
    case Running => if a.Spawn? && (a.t !in s.place || a.t in s.ps[p].free) then R.SetNext(a.t) else R.Same
    case SpawnPut(t, _) => if a.Go? then Putting(q, t) else R.Same
    case YieldPut(t) => if a.Go? then Putting(q, t) else R.Same
    case _ => R.Same
  }

  /** What action a does to the queue of P p. */
  function OpOf(s: World, a: Action, p: PId): R.Op
    requires p < |s.ps|
  {
    if a.m !in s.ms || s.panicked then R.Same
    else if s.ms[a.m].p == Some(p) then OwnOp(s, a, p)
    else if a.Steal? && s.ms[a.m].p.Some? && Steals(s, a, s.ms[a.m].p.value, p) then Losing(QueueOf(s, p), a.n)
    else R.Same
  }

  // ---------- what the steps do

  predicate SameQueues(s: World, s2: World) {
    && |s2.ps| == |s.ps| && s2.gq == s.gq
    && forall q :: 0 <= q < |s.ps| ==> s2.ps[q].ring == s.ps[q].ring && s2.ps[q].next == s.ps[q].next
  }

  /** Only P p has its queue changed, by op. */
  predicate OnlyOwn(s: World, s2: World, p: PId, op: R.Op) {
    && p < |s.ps| && |s2.ps| == |s.ps|
    && (forall q :: 0 <= q < |s.ps| && q != p ==> s2.ps[q].ring == s.ps[q].ring && s2.ps[q].next == s.ps[q].next)
    && R.Possible(QueueOf(s, p), op, false) && QueueOf(s2, p) == R.Apply(QueueOf(s, p), op)
  }

  lemma SameIsOnly(s: World, s2: World, p: PId)
    requires SameQueues(s, s2) && p < |s.ps|
    ensures OnlyOwn(s, s2, p, R.Same)
  {
  }

  lemma TakeLocalOp(s: World, m: MId, p: PId)
    requires m in s.ms && p < |s.ps| && (s.ps[p].next.Some? || s.ps[p].ring != [])
    ensures OnlyOwn(s, TakeLocal(s, m, p), p, Getting(QueueOf(s, p)))
  {
    hide Moved;
  }

  /** M m has come to hold task t, to be run in a time slice of its own, or in what is left of the one before. */
  predicate Gets(s2: World, m: MId, t: Task, inherit: bool) {
    m in s2.ms && s2.ms[m].pc == Got(t, inherit)
  }

  lemma TakeLocalGets(s: World, m: MId, p: PId)
    requires m in s.ms && p < |s.ps| && (s.ps[p].next.Some? || s.ps[p].ring != [])
    ensures var s2, x := TakeLocal(s, m, p), s.ps[p];
      && s2.gq == s.gq
      && if x.next.Some? then Gets(s2, m, x.next.value, true) else Gets(s2, m, x.ring[0], false)
  {
    hide Moved;
  }

  lemma TakeGlobalOp(s: World, m: MId, p: PId, max: nat)
    requires m in s.ms && p < |s.ps| && QueuesOk(s) && (s.ps[p].ring == [] || max == 1)
    ensures OnlyOwn(s, TakeGlobal(s, m, p, max), p, Fetching(s, max))
    ensures s.gq != [] ==>
      var n := Globals(s, max);
      && 0 < n <= |s.gq| && TakeGlobal(s, m, p, max).gq == s.gq[n..]
      && Gets(TakeGlobal(s, m, p, max), m, s.gq[0], false)
  {
    assert max == 1 ==> GlobalQueue.Batch(|s.gq|, |s.ps|, max) <= 1;
    hide Moved, GlobalQueue.Batch, NoDup;
  }

  lemma PutOp(s: World, m: MId, p: PId, t: Task, pc: Pc)
    requires m in s.ms && p < |s.ps|
    ensures OnlyOwn(s, PutStep(s, m, p, t, pc), p, Putting(QueueOf(s, p), t)) && PutStep(s, m, p, t, pc).gq == s.gq
  {
    hide Moved;
  }

  lemma SpawnOp(s: World, m: MId, p: PId, t: Task, wake: bool)
    requires m in s.ms && p < |s.ps| && !SpawnStep(s, m, p, t, wake).panicked
    ensures OnlyOwn(s, SpawnStep(s, m, p, t, wake), p,
                    if t !in s.place || t in s.ps[p].free then R.SetNext(t) else R.Same)
    ensures SpawnStep(s, m, p, t, wake).gq == s.gq
  {
    hide Moved;
  }

  /** p_runqsteal changes the thief's queue and the victim's, each by its operation. */
  lemma StealOp(s: World, m: MId, p: PId, v: PId, n: nat)
    requires m in s.ms && p < |s.ps| && v < |s.ps| && p != v && QueuesOk(s)
    requires !StealStep(s, m, p, v, n).panicked
    ensures var s2, q, y := StealStep(s, m, p, v, n), QueueOf(s, p), QueueOf(s, v);
      && s2.gq == s.gq && |s2.ps| == |s.ps|
      && R.Possible(q, Winning(y, n), false) && QueueOf(s2, p) == R.Apply(q, Winning(y, n))
      && R.Possible(y, Losing(y, n), true) && QueueOf(s2, v) == R.Apply(y, Losing(y, n))
      && (forall i :: 0 <= i < |s.ps| && i != p && i != v ==> QueueOf(s2, i) == QueueOf(s, i))
      && (Losing(y, n).TakeFirst? ==> Gets(s2, m, y.ring[n - 1], false))
      && (Losing(y, n).ClearNext? ==> Gets(s2, m, y.next.value, false))
  {
    hide Moved, NoDup;
  }

  /** What the steps rely on. */
  lemma QueueFacts(s: World, m: MId, p: PId)
    requires Ready(s, m, p)
    ensures s.gqSize == |s.gq| && QueuesOk(s)
    ensures MustBeEmpty(s.ms[m]) ==> s.ps[p].ring == [] && s.ps[p].next.None?
  {
  }

  lemma ScheduleOp(s: World, m: MId, p: PId)
    requires Ready(s, m, p) && s.ms[m].pc.Sched?
    ensures OnlyOwn(s, ScheduleStep(s, m, p), p, OwnOp(s, Go(m), p))
  {
    hide Inv;
    QueueFacts(s, m, p);
    hide QueuesOk, Fetching, TakeGlobal, TakeLocal, OnlyOwn, Getting;
    SameIsOnly(s, SetPc(s, m, Find), p);
    if s.gq != [] { TakeGlobalOp(s, m, p, 1); }
    if s.ps[p].next.Some? || s.ps[p].ring != [] { TakeLocalOp(s, m, p); }
    GettingNone(QueueOf(s, p));
  }

  lemma GettingNone(q: R.Queue)
    ensures Getting(q).Same? <==> q.next.None? && q.ring == []
  {
  }

  lemma FindOp(s: World, m: MId, p: PId, giveUp: bool)
    requires Ready(s, m, p) && s.ms[m].pc.Find?
    ensures OnlyOwn(s, FindStep(s, m, p, giveUp), p, OwnOp(s, FindWork(m, giveUp), p))
  {
    hide Inv;
    QueueFacts(s, m, p);
    if s.ps[p].next.Some? || s.ps[p].ring != [] { TakeLocalOp(s, m, p); } else { TakeGlobalOp(s, m, p, 0); }
    hide TakeGlobal, TakeLocal, QueuesOk;
  }

  lemma StopOp(s: World, m: MId, p: PId)
    requires Ready(s, m, p) && s.ms[m].pc.Stop? && p < |s.holder|
    ensures OnlyOwn(s, StopStep(s, m, p), p, OwnOp(s, Go(m), p))
  {
    hide Inv;
    QueueFacts(s, m, p);
    TakeGlobalOp(s, m, p, 0);
    hide QueuesOk, TakeGlobal;
  }

  /** The other steps leave every queue alone. */
  lemma SpinQuiet(s: World, m: MId)
    requires m in s.ms
    ensures SameQueues(s, SpinStep(s, m))
  {
  }

  lemma WakeQuiet(s: World, m: MId)
    requires m in s.ms
    ensures SameQueues(s, WakeStep(s, m))
  {
    hide Return;
  }

  lemma StartQuiet(s: World, m: MId, k: Cont)
    requires m in s.ms
    ensures SameQueues(s, StartStep(s, m, k))
  {
  }

  lemma HandQuiet(s: World, m: MId, k: Cont, nm: MId, q: PId)
    requires m in s.ms
    ensures SameQueues(s, HandStep(s, m, k, nm, q))
  {
    hide Return;
  }

  lemma ExecQuiet(s: World, m: MId, p: PId, t: Task, inherit: bool)
    requires m in s.ms && p < |s.ps|
    ensures SameQueues(s, ExecStep(s, m, p, t, inherit))
  {
  }

  lemma QuietOwned(s: World, m: MId, p: PId)
    requires m in s.ms && p < |s.ps| && p < |s.holder|
    requires !s.ms[m].pc.Sched? && !s.ms[m].pc.Stop? && !s.ms[m].pc.SpawnPut? && !s.ms[m].pc.YieldPut?
    ensures SameQueues(s, OwnedStep(s, m, p))
  {
    hide SameQueues, StartStep, HandStep, ExecStep, SpinStep, WakeStep;
    SpinQuiet(s, m);
    WakeQuiet(s, m);
    NoneChanged(s);
    match s.ms[m].pc
    case WakeStart(k) => StartQuiet(s, m, k);
    case WakeHand(k, nm, q) => HandQuiet(s, m, k, nm, q);
    case Exec(t, inherit) => ExecQuiet(s, m, p, t, inherit);
    case _ =>
  }

  lemma NoneChanged(s: World)
    ensures SameQueues(s, s)
  {
  }

  lemma OwnedOp(s: World, m: MId, p: PId)
    requires Ready(s, m, p) && p < |s.holder|
    ensures OnlyOwn(s, OwnedStep(s, m, p), p, OwnOp(s, Go(m), p))
  {
    hide Inv, OnlyOwn, ScheduleStep, StopStep, PutStep, Fetching, Getting, Putting;
    match s.ms[m].pc
    case Sched => ScheduleOp(s, m, p);
    case Stop => StopOp(s, m, p);
    case SpawnPut(t, wake) => PutOp(s, m, p, t, if wake then WakeIdle(ToTask) else Running);
    case YieldPut(t) => PutOp(s, m, p, t, Sched);
    case _ =>
      hide OwnedStep;
      QuietOwned(s, m, p);
      SameIsOnly(s, OwnedStep(s, m, p), p);
  }

  lemma AcquireQuiet(s: World, m: MId, p: PId, next: Mach)
    requires m in s.ms
    ensures SameQueues(s, Acquire(s, m, p, next))
  {
  }

  lemma LooseQuiet(s: World, m: MId)
    requires m in s.ms
    ensures SameQueues(s, LooseStep(s, m))
  {
    var x := s.ms[m];
    hide Acquire;
    match x.pc
    case Recheck(was) =>
      if s.idle != [] {
        AcquireQuiet(IdleGet(s, m), m, s.idle[0], if was then x.(pc := ReSpin, spinning := true) else x.(pc := Find));
      }
    case Woken => if x.nextp.Some? { AcquireQuiet(s, m, x.nextp.value, x.(pc := Find, nextp := None)); }
    case Starting =>
      if x.nextp.Some? { AcquireQuiet(s, m, x.nextp.value, x.(pc := Sched, nextp := None, spinning := true)); }
    case _ =>
  }

  lemma ChoiceQuiet(s: World, a: Action)
    requires a.m in s.ms && !a.Go? && !a.FindWork? && !a.Steal? && !a.Spawn?
    ensures SameQueues(s, Step(s, a))
  {
    hide Moved, Return;
  }

  /** From s to s2 the queue of P p has changed by the operation that action a is for it. */
  predicate Changed(s: World, s2: World, a: Action, p: PId) {
    && p < |s.ps| == |s2.ps|
    && R.Possible(QueueOf(s, p), OpOf(s, a, p), a.m in s.ms && s.ms[a.m].p != Some(p))
    && QueueOf(s2, p) == R.Apply(QueueOf(s, p), OpOf(s, a, p))
  }

  lemma OnlyChanged(s: World, s2: World, a: Action, p: PId, own: PId)
    requires a.m in s.ms && s.ms[a.m].p == Some(own) && own < |s.ps| && p < |s.ps| && !s.panicked && !a.Steal?
    requires OnlyOwn(s, s2, own, OwnOp(s, a, own))
    ensures Changed(s, s2, a, p)
  {
    hide OwnOp;
  }

  lemma SameChanged(s: World, s2: World, a: Action, p: PId)
    requires p < |s.ps| && SameQueues(s, s2) && OpOf(s, a, p) == R.Same
    ensures Changed(s, s2, a, p)
  {
    hide OpOf;
  }

  lemma StealIs(s: World, a: Action, own: PId)
    requires a.m in s.ms && s.ms[a.m].p == Some(own) && own < |s.ps| && a.Steal? && !s.panicked
    ensures Step(s, a) == if Steals(s, a, own, a.victim) then StealStep(s, a.m, own, a.victim, a.n) else s
  {
    hide StealStep;
  }

  lemma StealsOp(s: World, a: Action, p: PId, own: PId)
    requires a.m in s.ms && s.ms[a.m].p == Some(own) && own < |s.ps| && a.Steal? && p < |s.ps| && !s.panicked
    ensures OpOf(s, a, p) ==
      if !Steals(s, a, own, a.victim) then R.Same
      else if p == own then Winning(QueueOf(s, a.victim), a.n)
      else if p == a.victim then Losing(QueueOf(s, p), a.n) else R.Same
  {
    hide Winning, Losing, Fetching, Putting, Getting;
  }

  lemma StealChanged(s: World, a: Action, p: PId, own: PId)
    requires Inv(s) && a.m in s.ms && s.ms[a.m].p == Some(own) && own < |s.ps| && p < |s.ps| && a.Steal?
    ensures Changed(s, Step(s, a), a, p)
  {
    StealIs(s, a, own);
    StealsOp(s, a, p, own);
    assert !s.panicked && QueuesOk(s);
    hide Inv, QueuesOk, Step, OpOf, StealStep, Winning, Losing;
    StepKept(s, a);
    NoPanic(Step(s, a));
    if Steals(s, a, own, a.victim) { StealOp(s, a.m, own, a.victim, a.n); }
  }

  lemma SpawnsOp(s: World, a: Action, p: PId, own: PId)
    requires a.m in s.ms && s.ms[a.m].p == Some(own) && own < |s.ps| && a.Spawn? && p < |s.ps| && !s.panicked
    ensures OwnOp(s, a, own) ==
      if s.ms[a.m].pc.Running? && (a.t !in s.place || a.t in s.ps[own].free) then R.SetNext(a.t) else R.Same
    ensures !s.ms[a.m].pc.Running? ==> OpOf(s, a, p) == R.Same
  {
    hide Winning, Losing, Fetching, Putting, Getting;
  }

  lemma SpawnChanged(s: World, a: Action, p: PId, own: PId)
    requires Inv(s) && a.m in s.ms && s.ms[a.m].p == Some(own) && own < |s.ps| && p < |s.ps| && a.Spawn?
    ensures Changed(s, Step(s, a), a, p)
  {
    hide Inv, Step, SpawnStep, OnlyOwn, OwnOp, Changed, OpOf, SameQueues;
    NoPanic(s);
    SpawnIs(s, a, own);
    SpawnsOp(s, a, p, own);
    StepKept(s, a);
    NoPanic(Step(s, a));
    if s.ms[a.m].pc.Running? {
      SpawnOp(s, a.m, own, a.t, a.wake);
      OnlyChanged(s, Step(s, a), a, p, own);
    } else {
      NoneChanged(s);
      SameChanged(s, s, a, p);
    }
  }

  lemma FindChanged(s: World, a: Action, p: PId, own: PId)
    requires Inv(s) && a.m in s.ms && s.ms[a.m].p == Some(own) && own < |s.ps| && p < |s.ps| && a.FindWork?
    ensures Changed(s, Step(s, a), a, p)
  {
    NoPanic(s);
    FindIs(s, a, own);
    hide Inv, Step, FindStep;
    if s.ms[a.m].pc.Find? {
      FindOp(s, a.m, own, a.giveUp);
      OnlyChanged(s, Step(s, a), a, p, own);
    } else {
      NoneChanged(s);
      SameChanged(s, s, a, p);
    }
  }

  /**
   Every step of every M changes the queue of every P by one operation, or none: what OpOf names, which was
   possible there, by the M that has the P or by a thief.
   */
  lemma StepChanges(s: World, a: Action, p: PId)
    requires Inv(s) && p < |s.ps|
    ensures Changed(s, Step(s, a), a, p)
  {
    if a.m in s.ms && s.ms[a.m].p.Some? { OwnerOf(s, a.m, s.ms[a.m].p.value); }
    NoPanic(s);
    if a.m !in s.ms {
      hide Inv;
      NoneChanged(s);
      SameChanged(s, s, a, p);
    } else if s.ms[a.m].p.None? {
      hide Inv, Step;
      LooseOp(s, a, p);
    } else {
      hide Inv, Step, OwnedStep, OwnOp;
      var own := s.ms[a.m].p.value;
      match a
      case Steal(_, _, _) => StealChanged(s, a, p, own);
      case Spawn(_, _, _) => SpawnChanged(s, a, p, own);
      case Go(m) =>
        GoIs(s, m, own);
        OwnedOp(s, m, own);
        OnlyChanged(s, Step(s, a), a, p, own);
      case FindWork(_, _) => FindChanged(s, a, p, own);
      case _ =>
        ChoiceQuiet(s, a);
        ChoiceSame(s, a, p);
        SameChanged(s, Step(s, a), a, p);
    }
  }

  lemma ChoiceSame(s: World, a: Action, p: PId)
    requires p < |s.ps| && !a.Go? && !a.FindWork? && !a.Steal? && !a.Spawn?
    ensures OpOf(s, a, p) == R.Same
  {
  }

  lemma LooseStays(s: World, a: Action)
    requires Inv(s) && a.m in s.ms && s.ms[a.m].p.None?
    ensures SameQueues(s, Step(s, a))
  {
    MachOf(s, a.m);
    hide Inv, LooseStep;
    LooseQuiet(s, a.m);
    NoneChanged(s);
  }

  lemma LooseOp(s: World, a: Action, p: PId)
    requires Inv(s) && p < |s.ps| && a.m in s.ms && s.ms[a.m].p.None?
    ensures Changed(s, Step(s, a), a, p)
  {
    LooseStays(s, a);
    hide Inv, Step;
    SameChanged(s, Step(s, a), a, p);
  }

  // ---------- who gets what comes off a queue

  /** How many tasks action a takes from the global queue. */
  function Fetched(s: World, a: Action): nat {
    if a.m !in s.ms || s.ms[a.m].p.None? || s.ms[a.m].p.value >= |s.ps| then 0
    else
      var p := s.ms[a.m].p.value;
      match s.ms[a.m].pc
      case Sched => if a.Go? && s.ps[p].tick % 61 == 0 then Globals(s, 1) else 0
      case Find => if a.FindWork? && Getting(QueueOf(s, p)).Same? then Globals(s, 0) else 0
      case Stop => if a.Go? then Globals(s, 0) else 0
      case _ => 0
  }

  /** What comes off the global queue is its front, and M m has the first of it in hand. */
  predicate Gained(s: World, s2: World, m: MId, n: nat) {
    n <= |s.gq| && s2.gq == s.gq[n..] && (n > 0 ==> Gets(s2, m, s.gq[0], false))
  }

  /** The same for the queue of the P p that the M of action a has. */
  predicate Handed(s: World, s2: World, a: Action, p: PId)
    requires a.m in s.ms && p < |s.ps|
  {
    match OwnOp(s, a, p)
    case ClearNext => s.ps[p].next.Some? && Gets(s2, a.m, s.ps[p].next.value, true)
    case TakeFirst(_) => s.ps[p].ring != [] && Gets(s2, a.m, s.ps[p].ring[0], false)
    case _ => true
  }

  lemma NoGlobals(s: World, max: nat)
    requires s.gq == []
    ensures Globals(s, max) == 0
  {
  }

  lemma ScheduleHands(s: World, m: MId, p: PId)
    requires Ready(s, m, p) && s.ms[m].pc.Sched?
    ensures Gained(s, ScheduleStep(s, m, p), m, Fetched(s, Go(m))) && Handed(s, ScheduleStep(s, m, p), Go(m), p)
  {
    hide Inv;
    QueueFacts(s, m, p);
    hide QueuesOk, TakeGlobal, TakeLocal, OnlyOwn, Globals;
    if s.gq == [] { NoGlobals(s, 1); } else { TakeGlobalOp(s, m, p, 1); }
    if s.ps[p].next.Some? || s.ps[p].ring != [] { TakeLocalGets(s, m, p); }
  }

  lemma FindHands(s: World, m: MId, p: PId, giveUp: bool)
    requires Ready(s, m, p) && s.ms[m].pc.Find?
    ensures Gained(s, FindStep(s, m, p, giveUp), m, Fetched(s, FindWork(m, giveUp)))
    ensures Handed(s, FindStep(s, m, p, giveUp), FindWork(m, giveUp), p)
  {
    hide Inv;
    QueueFacts(s, m, p);
    hide QueuesOk, TakeGlobal, TakeLocal, OnlyOwn, Globals;
    if s.gq == [] { NoGlobals(s, 0); }
    if s.ps[p].next.Some? || s.ps[p].ring != [] { TakeLocalGets(s, m, p); } else { TakeGlobalOp(s, m, p, 0); }
  }

  lemma StopHands(s: World, m: MId, p: PId)
    requires Ready(s, m, p) && s.ms[m].pc.Stop? && p < |s.holder|
    ensures Gained(s, StopStep(s, m, p), m, Fetched(s, Go(m))) && Handed(s, StopStep(s, m, p), Go(m), p)
  {
    hide Inv;
    QueueFacts(s, m, p);
    hide QueuesOk, TakeGlobal, OnlyOwn, Globals;
    if s.gq == [] { NoGlobals(s, 0); } else { TakeGlobalOp(s, m, p, 0); }
  }

  /** The actions that take nothing off a queue of the M's own. */
  lemma NothingHanded(s: World, s2: World, a: Action, p: PId)
    requires a.m in s.ms && s.ms[a.m].p == Some(p) && p < |s.ps| && s2.gq == s.gq
    requires if a.Go? then !s.ms[a.m].pc.Sched? && !s.ms[a.m].pc.Stop? else !a.FindWork? || !s.ms[a.m].pc.Find?
    ensures Gained(s, s2, a.m, Fetched(s, a)) && Handed(s, s2, a, p)
  {
    NoneFetched(s, a, p);
    NoTakeOp(s, a, p);
    hide Fetched, OwnOp, Gets;
    assert s.gq[0..] == s.gq;
  }

  lemma NoneFetched(s: World, a: Action, p: PId)
    requires a.m in s.ms && s.ms[a.m].p == Some(p) && p < |s.ps|
    requires if a.Go? then !s.ms[a.m].pc.Sched? && !s.ms[a.m].pc.Stop? else !a.FindWork? || !s.ms[a.m].pc.Find?
    ensures Fetched(s, a) == 0
  {
    hide Getting, Globals;
  }

  lemma NoTakeOp(s: World, a: Action, p: PId)
    requires a.m in s.ms && p < |s.ps|
    requires if a.Go? then !s.ms[a.m].pc.Sched? && !s.ms[a.m].pc.Stop? else !a.FindWork? || !s.ms[a.m].pc.Find?
    ensures !OwnOp(s, a, p).ClearNext? && !OwnOp(s, a, p).TakeFirst?
  {
    hide Getting, Globals;
  }

  lemma OwnedHands(s: World, m: MId, p: PId)
    requires Ready(s, m, p) && p < |s.holder|
    ensures Gained(s, OwnedStep(s, m, p), m, Fetched(s, Go(m))) && Handed(s, OwnedStep(s, m, p), Go(m), p)
  {
    hide Inv, Gained, Fetched, Handed, ScheduleStep, StopStep, PutStep;
    match s.ms[m].pc
    case Sched => ScheduleHands(s, m, p);
    case Stop => StopHands(s, m, p);
    case SpawnPut(t, wake) =>
      var pc2 := if wake then WakeIdle(ToTask) else Running;
      PutOp(s, m, p, t, pc2);
      NothingHanded(s, PutStep(s, m, p, t, pc2), Go(m), p);
    case YieldPut(t) =>
      PutOp(s, m, p, t, Sched);
      NothingHanded(s, PutStep(s, m, p, t, Sched), Go(m), p);
    case _ =>
      hide OwnedStep;
      QuietOwned(s, m, p);
      NothingHanded(s, OwnedStep(s, m, p), Go(m), p);
  }

  /**
   What an M takes off its own queue or the global one it has in hand: runnext to be run in what is left of
   the time slice, the first of the ring or of the global queue for a slice of its own.
   */
  lemma StepHands(s: World, a: Action, p: PId)
    requires Ready(s, a.m, p)
    ensures Gained(s, Step(s, a), a.m, Fetched(s, a)) && Handed(s, Step(s, a), a, p)
  {
    NoPanic(s);
    OwnerOf(s, a.m, p);
    hide Inv, Step, Gained, Fetched, Handed, OwnedStep, FindStep, StealStep, SpawnStep;
    match a
    case Go(m) => GoIs(s, m, p); OwnedHands(s, m, p);
    case FindWork(m, giveUp) =>
      FindIs(s, a, p);
      if s.ms[m].pc.Find? { FindHands(s, m, p, giveUp); } else { NothingHanded(s, s, a, p); }
    case Steal(_, v, n) => StealHands(s, a, p); NothingHanded(s, Step(s, a), a, p);
    case Spawn(m, t, wake) => SpawnSame(s, a, p); NothingHanded(s, Step(s, a), a, p);
    case _ => ChoiceQuiet(s, a); NothingHanded(s, Step(s, a), a, p);
  }

  lemma SpawnSame(s: World, a: Action, p: PId)
    requires Ready(s, a.m, p) && a.Spawn?
    ensures Step(s, a).gq == s.gq
  {
    hide Inv, SpawnStep, Step;
    NoPanic(s);
    SpawnIs(s, a, p);
    StepKept(s, a);
    NoPanic(Step(s, a));
    if s.ms[a.m].pc.Running? { SpawnOp(s, a.m, p, a.t, a.wake); }
  }

  /** What a thief takes off another queue: it runs the last of its batch, or runnext in a slice of its own. */
  lemma StealHands(s: World, a: Action, p: PId)
    requires Ready(s, a.m, p) && a.Steal?
    ensures Step(s, a).gq == s.gq
    ensures Steals(s, a, p, a.victim) ==>
      var y := QueueOf(s, a.victim);
      && (Losing(y, a.n).TakeFirst? ==> Gets(Step(s, a), a.m, y.ring[a.n - 1], false))
      && (Losing(y, a.n).ClearNext? ==> Gets(Step(s, a), a.m, y.next.value, false))
  {
    hide Inv;
    QueueFacts(s, a.m, p);
    hide QueuesOk, StealStep, Step, Losing, Winning, R.Apply, R.Possible;
    NoPanic(s);
    StealIs(s, a, p);
    StepKept(s, a);
    NoPanic(Step(s, a));
    if Steals(s, a, p, a.victim) { StealOp(s, a.m, p, a.victim, a.n); }
  }

  /** An M without a P takes nothing. */
  lemma LooseHands(s: World, a: Action)
    requires Inv(s) && (a.m in s.ms ==> s.ms[a.m].p.None?)
    ensures Step(s, a).gq == s.gq
  {
    if a.m in s.ms {
      hide Inv, Step;
      LooseStays(s, a);
    }
  }

  // ---------- order

  /** x is before y in a ring. */
  predicate Before(ring: seq<Task>, x: Task, y: Task) {
    exists i, j :: 0 <= i < j < |ring| && ring[i] == x && ring[j] == y
  }

  /** y is behind x, or not there. */
  predicate NotAhead(ring: seq<Task>, x: Task, y: Task) {
    y in ring ==> Before(ring, x, y)
  }

  lemma DropKeepsOrder(ring: seq<Task>, n: nat, x: Task, y: Task)
    requires n <= |ring| && NoDup(ring) && x in ring[n..] && Before(ring, x, y)
    ensures Before(ring[n..], x, y)
  {
    var i, j :| 0 <= i < j < |ring| && ring[i] == x && ring[j] == y;
    var k :| 0 <= k < |ring[n..]| && ring[n..][k] == x;
    assert i == n + k;
    assert ring[n..][j - n] == y;
  }

  lemma AppendKeepsOrder(ring: seq<Task>, ts: seq<Task>, x: Task, y: Task)
    ensures Before(ring, x, y) ==> Before(ring + ts, x, y)
    ensures x in ring && y in ts ==> Before(ring + ts, x, y)
  {
    if Before(ring, x, y) {
      var i, j :| 0 <= i < j < |ring| && ring[i] == x && ring[j] == y;
      assert (ring + ts)[i] == x && (ring + ts)[j] == y;
    }
    if x in ring && y in ts {
      var i :| 0 <= i < |ring| && ring[i] == x;
      var j :| 0 <= j < |ts| && ts[j] == y;
      assert (ring + ts)[i] == x && (ring + ts)[|ring| + j] == y;
    }
  }

  /** An operation that leaves x in the ring leaves what is behind it there, and puts nothing in front of it. */
  lemma OpKeepsOrder(q: R.Queue, op: R.Op, byThief: bool, x: Task, y: Task)
    requires R.Possible(q, op, byThief) && NoDup(q.ring)
    requires x in q.ring && x in R.Apply(q, op).ring
    ensures Before(q.ring, x, y) ==> Before(R.Apply(q, op).ring, x, y)
    ensures NotAhead(q.ring, x, y) ==> NotAhead(R.Apply(q, op).ring, x, y)
  {
    hide NoDup, Before;
    match op
    case TakeFirst(n) => if Before(q.ring, x, y) { DropKeepsOrder(q.ring, n, x, y); }
    case Append(ts) => AppendKeepsOrder(q.ring, ts, x, y);
    case _ =>
  }

  predicate InRingOf(s: World, p: PId, t: Task) {
    p < |s.ps| && t in s.ps[p].ring
  }

  /** A step that leaves x in its ring leaves every task behind it there and behind it, and puts none ahead of it. */
  lemma StepKeepsOrder(s: World, a: Action, p: PId, x: Task, y: Task)
    requires Inv(s) && InRingOf(s, p, x) && InRingOf(Step(s, a), p, x)
    ensures Before(s.ps[p].ring, x, y) ==> Before(Step(s, a).ps[p].ring, x, y)
    ensures NotAhead(s.ps[p].ring, x, y) ==> NotAhead(Step(s, a).ps[p].ring, x, y)
  {
    RingNoDup(s, p);
    hide Inv, Step, OpOf, Before, NotAhead, R.Possible, NoDup, R.Apply;
    StepChanges(s, a, p);
    OpKeepsOrder(QueueOf(s, p), OpOf(s, a, p), a.m in s.ms && s.ms[a.m].p != Some(p), x, y);
  }

  lemma RingNoDup(s: World, p: PId)
    requires Inv(s) && p < |s.ps|
    ensures NoDup(s.ps[p].ring)
  {
  }

  /**
   First in, first out, over every run and whatever the thieves do: as long as x stays in the ring of P p, a
   task behind it stays behind it, and one that was not there can only come in behind it. So no task leaves
   the ring before one that came in before it.
   */
  lemma {:induction false} FirstInFirstOut(s0: World, acts: seq<Action>, p: PId, x: Task, y: Task)
    requires Inv(s0)
    requires forall i :: 0 <= i <= |acts| ==> InRingOf(Run(s0, acts[..i]), p, x)
    ensures InRingOf(s0, p, x) && InRingOf(Run(s0, acts), p, x)
    ensures Before(s0.ps[p].ring, x, y) ==> Before(Run(s0, acts).ps[p].ring, x, y)
    ensures NotAhead(s0.ps[p].ring, x, y) ==> NotAhead(Run(s0, acts).ps[p].ring, x, y)
  {
    hide Inv, Step, Before, NotAhead, InRingOf;
    assert acts[..0] == [] && acts[..|acts|] == acts;
    assert InRingOf(Run(s0, acts[..0]), p, x) && InRingOf(Run(s0, acts[..|acts|]), p, x);
    if acts != [] {
      var init, a := acts[..|acts| - 1], acts[|acts| - 1];
      forall i | 0 <= i <= |init| ensures InRingOf(Run(s0, init[..i]), p, x) { assert init[..i] == acts[..i]; }
      FirstInFirstOut(s0, init, p, x, y);
      RunKept(s0, init);
      StepKeepsOrder(Run(s0, init), a, p, x, y);
    }
  }

  // ---------- a yield

  lemma YieldHolds(s: World, m: MId, p: PId, t: Task)
    requires Ready(s, m, p) && s.ms[m].pc.Running? && s.ms[m].curt == Some(t)
    ensures var s1 := Step(s, Yield(m));
      && s1.ms == s.ms[m := s.ms[m].(pc := YieldPut(t), curt := None)] && s1.ps == s.ps && !s1.panicked
      && s1.status == s.status[t := TRunnable] && s1.holder == s.holder
  {
    RunningReady(s, m);
    NoPanic(s);
    hide Inv, YieldStep;
    assert Step(s, Yield(m)) == YieldStep(s, m, t);
    hide Step;
  }

  lemma YieldPuts(s: World, m: MId, p: PId, t: Task)
    requires m in s.ms && s.ms[m].p == Some(p) && p < |s.ps| && p < |s.holder| && !s.panicked
    requires s.ms[m].pc == YieldPut(t) && |s.ps[p].ring| < 256
    ensures var s2 := Step(s, Go(m));
      && s2.ms == s.ms[m := s.ms[m].(pc := Sched)] && s2.status == s.status
      && |s2.ps| == |s.ps| && s2.ps[p].ring == s.ps[p].ring + [t] && s2.ps[p].next == s.ps[p].next
  {
    hide Step, Moved;
    GoIs(s, m, p);
  }

  /** t_yield1 with room in the ring: the task is runnable and the last of its ring, and its M enters schedule. */
  lemma YieldGoesLast(s: World, m: MId, p: PId, t: Task)
    requires Ready(s, m, p) && s.ms[m].pc.Running? && s.ms[m].curt == Some(t) && |s.ps[p].ring| < 256
    ensures var s2 := Step(Step(s, Yield(m)), Go(m));
      && s2.ms == s.ms[m := s.ms[m].(pc := Sched, curt := None)] && s2.status == s.status[t := TRunnable]
      && |s2.ps| == |s.ps| && s2.ps[p].ring == s.ps[p].ring + [t] && s2.ps[p].next == s.ps[p].next
  {
    OwnerOf(s, m, p);
    hide Inv, Step;
    YieldHolds(s, m, p, t);
    YieldPuts(Step(s, Yield(m)), m, p, t);
  }
}

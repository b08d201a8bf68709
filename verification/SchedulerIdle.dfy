/** An M that finds nothing to do: what s_findrunnable decides, and that a last look can undo going idle. */
module SchedulerIdle {
  import opened Base
  import opened Scheduler
  import opened SchedulerInv
  import opened SchedulerRuns
  import opened SchedulerWakes
  import Q = SchedulerQueues

  /** Nothing to do for M m: not on its P p, nor in the global queue. */
  ghost predicate NoWork(s: World, m: MId, p: PId) {
    Ready(s, m, p) && s.ps[p].ring == [] && s.ps[p].next.None? && s.gq == []
  }

  /** An M without work goes on to steal, counted as spinning if it was not, or gives up. */
  lemma FindDecides(s: World, m: MId, p: PId, giveUp: bool)
    requires NoWork(s, m, p) && s.ms[m].pc.Find?
    ensures var x, s2 := s.ms[m], Step(s, FindWork(m, giveUp));
      if x.spinning then s2 == At(s, m, Stealing, s.nmspinning)
      else if giveUp then s2 == At(s, m, Stop, s.nmspinning)
      else s2 == Local(s, m, x.(pc := SpinUp, spinning := true), s.nmspinning)
           && Step(s2, Go(m)) == Local(s, m, x.(pc := Stealing, spinning := true), s.nmspinning + 1)
  {
    OwnerOf(s, m, p);
    hide Inv, Step;
    Q.QueueFacts(s, m, p);
    NoPanic(s);
    FindIs(s, FindWork(m, giveUp), p);
    var y := s.ms[m].(pc := SpinUp, spinning := true);
    GoIs(Local(s, m, y, s.nmspinning), m, p);
    LocalLocal(s, m, y, s.nmspinning, y.(pc := Stealing), s.nmspinning + 1);
  }

  /** An M that found no victim with work goes on to give up its P. */
  lemma StealFails(s: World, m: MId)
    requires Inv(s) && m in s.ms && s.ms[m].pc.Stealing?
    ensures Step(s, GiveUp(m)) == At(s, m, Stop, s.nmspinning)
  {
    NoPanic(s);
    hide Inv;
  }

  /** State s after M m has put its P p on the idle list, with n for nmspinning. */
  function Out(s: World, m: MId, p: PId, pc: Pc, spinning: bool, n: int): World
    requires m in s.ms && p < |s.ps| && p < |s.holder|
  {
    s.(ps := s.ps[p := s.ps[p].(running := false, m := None)],
       ms := s.ms[m := s.ms[m].(pc := pc, spinning := spinning, p := None)],
       idle := [p] + s.idle, idleMask := s.idleMask + {p}, npidle := s.npidle + 1,
       holder := s.holder[p := Idle], nmspinning := n)
  }

  /** What M m with P p relies on. */
  lemma OwnFacts(s: World, m: MId, p: PId)
    requires Ready(s, m, p)
    ensures p < |s.holder| && s.holder[p] == Owner(m) && s.ps[p].running && s.ps[p].m == Some(m)
    ensures p !in s.idle && p !in s.idleMask && s.npidle == |s.idle| && !s.panicked
  {
    OwnerOf(s, m, p);
    assert Holds(s, p, Owner(m));
    hide Tasks, MachsOk, ParkedOk, SpinOk;
  }

  /** s_findrunnable at "stop" with every queue empty: the P is the first of the idle list. */
  lemma Releases(s: World, m: MId, p: PId)
    requires NoWork(s, m, p) && s.ms[m].pc.Stop?
    ensures p < |s.holder|
    ensures Step(s, Go(m)) == Out(s, m, p, AfterRelease, s.ms[m].spinning, s.nmspinning)
  {
    hide Inv, Step;
    Q.QueueFacts(s, m, p);
    OwnFacts(s, m, p);
    GoIs(s, m, p);
  }

  /** Out of the spinning state, if the M was in it. */
  lemma StopsSpinning(s: World, m: MId, p: PId, n: int)
    requires m in s.ms && p < |s.ps| && p < |s.holder| && !s.panicked
    ensures Step(Out(s, m, p, AfterRelease, false, n), Go(m)) == Out(s, m, p, Recheck(false), false, n)
    ensures Step(Out(s, m, p, AfterRelease, true, n), Go(m)) == Out(s, m, p, SpinDown, false, n)
    ensures n > 0 ==> Step(Out(s, m, p, SpinDown, false, n), Go(m)) == Out(s, m, p, Recheck(true), false, n - 1)
  {
    hide Step;
    LooseIs(Out(s, m, p, AfterRelease, false, n), m);
    LooseIs(Out(s, m, p, AfterRelease, true, n), m);
    LooseIs(Out(s, m, p, SpinDown, false, n), m);
  }

  /** Back in with its own P: nothing but the M's place and the counter has changed. */
  lemma GetsBack(s: World, m: MId, p: PId, was: bool, n: int)
    requires Ready(s, m, p) && p < |s.holder|
    ensures Step(Out(s, m, p, Recheck(was), false, n), Go(m)) ==
      Local(s, m, s.ms[m].(pc := if was then ReSpin else Find, spinning := was), n)
  {
    hide Inv, Step;
    OwnFacts(s, m, p);
    var s1 := Out(s, m, p, Recheck(was), false, n);
    LooseIs(s1, m);
    assert s1.idle[0] == p && s1.idle[1..] == s.idle && s1.idleMask - {p} == s.idleMask;
    var next := if was then s1.ms[m].(pc := ReSpin, spinning := true) else s1.ms[m].(pc := Find);
    assert RecheckStep(s1, m, was) == Acquire(IdleGet(s1, m), m, p, next);
    Acquires(s, IdleGet(s1, m), m, p, next);
  }

  /** p_acquire of the P just taken off the idle list. */
  lemma Acquires(s: World, s1: World, m: MId, p: PId, next: Mach)
    requires m in s.ms && p < |s.ps| && p < |s.holder| && s.ps[p].running && s.ps[p].m == Some(m)
    requires s.ms[m].p == Some(p) && s.holder[p] == Owner(m)
    requires s1.ps == s.ps[p := s.ps[p].(running := false, m := None)] && m in s1.ms && s1.ms[m].p.None?
    requires s1.holder == s.holder[p := InTransit(m)] && s1.ms == s.ms[m := s1.ms[m]]
    requires s1 == s.(ps := s1.ps, ms := s1.ms, holder := s1.holder, nmspinning := s1.nmspinning)
    ensures Acquire(s1, m, p, next) == Local(s, m, next.(p := Some(p)), s1.nmspinning)
  {
    var s2 := Acquire(s1, m, p, next);
    assert s2.ps == s.ps && s2.holder == s.holder && s2.ms == s.ms[m := next.(p := Some(p))];
  }

  lemma SpinsAgain(s: World, m: MId, p: PId, x: Mach, n: int)
    requires Ready(s, m, p) && p < |s.holder| && x.pc.ReSpin? && x.p == Some(p)
    ensures Step(Local(s, m, x, n), Go(m)) == Local(s, m, x.(pc := Find), n + 1)
  {
    hide Inv, Step;
    NoPanic(s);
    GoIs(Local(s, m, x, n), m, p);
    LocalLocal(s, m, x, n, x.(pc := Find), n + 1);
  }

  /** nmspinning without M m. */
  function Others(s: World, m: MId): int
    requires m in s.ms
  {
    if s.ms[m].spinning then s.nmspinning - 1 else s.nmspinning
  }

  /** From "stop" to the last look at the queues, without a P and without a token. */
  lemma LooksAgain(s: World, m: MId, p: PId) returns (acts: seq<Action>)
    requires NoWork(s, m, p) && s.ms[m].pc.Stop?
    ensures By(acts, m) && p < |s.holder|
    ensures Run(s, acts) == Out(s, m, p, Recheck(s.ms[m].spinning), false, Others(s, m))
  {
    var was, n := s.ms[m].spinning, s.nmspinning;
    if was { SpinnersCounted(s, m); }
    hide Inv, Step, Run, Out, By;
    OwnFacts(s, m, p);
    Releases(s, m, p);
    StopsSpinning(s, m, p, n);
    assert By([], m) && Run(s, []) == s by { Nothing(s, m); }
    acts := Onward(s, [], m, Go(m), s);
    acts := Onward(s, acts, m, Go(m), Out(s, m, p, AfterRelease, was, n));
    if was { acts := Onward(s, acts, m, Go(m), Out(s, m, p, SpinDown, false, n)); }
  }

  /**
   An M that has given up its P and then finds a queue that is not empty after all, with nobody interfering,
   gets its P back: the whole scheduler is as it was, spinning and counted or not, except that the M is to
   look for work again.
   */
  lemma RetryRestores(s: World, m: MId, p: PId) returns (acts: seq<Action>)
    requires NoWork(s, m, p) && s.ms[m].pc.Stop?
    ensures By(acts, m) && Run(s, acts) == At(s, m, Find, s.nmspinning)
  {
    var x, n := s.ms[m], Others(s, m);
    hide Inv, Step, Run, Out, Local, By;
    acts := LooksAgain(s, m, p);
    GetsBack(s, m, p, x.spinning, n);
    acts := Onward(s, acts, m, Go(m), Out(s, m, p, Recheck(x.spinning), false, n));
    if x.spinning {
      SpinsAgain(s, m, p, x.(pc := ReSpin), n);
      acts := Onward(s, acts, m, Go(m), Local(s, m, x.(pc := ReSpin), n));
    }
  }

  lemma SpinnersCounted(s: World, m: MId)
    requires Inv(s) && m in s.ms && s.ms[m].spinning && s.ms[m].pc.Stop?
    ensures s.nmspinning > 0
  {
    TokenCounted(s, m);
  }

  /**
   If the queues look empty at the last look too, the M parks: it is the first of the idle Ms, its P the
   first of the idle Ps, and it is no longer counted as spinning.
   */
  lemma GivesUp(s: World, m: MId, p: PId) returns (acts: seq<Action>)
    requires NoWork(s, m, p) && s.ms[m].pc.Stop?
    ensures By(acts, m) && p < |s.holder|
    ensures Run(s, acts) == Out(s, m, p, Parked, false, Others(s, m)).(midle := [m] + s.midle)
  {
    var was, n := s.ms[m].spinning, Others(s, m);
    hide Inv, Step, Run, Out, By;
    NoPanic(s);
    acts := LooksAgain(s, m, p);
    Parks(s, m, p, was, n);
    acts := Onward(s, acts, m, GiveUp(m), Out(s, m, p, Recheck(was), false, n));
    acts := Onward(s, acts, m, Go(m), Out(s, m, p, Park, false, n));
  }

  lemma Parks(s: World, m: MId, p: PId, was: bool, n: int)
    requires m in s.ms && p < |s.ps| && p < |s.holder| && !s.panicked
    ensures Step(Out(s, m, p, Recheck(was), false, n), GiveUp(m)) == Out(s, m, p, Park, false, n)
    ensures Step(Out(s, m, p, Park, false, n), Go(m)) == Out(s, m, p, Parked, false, n).(midle := [m] + s.midle)
  {
    LooseIs(Out(s, m, p, Park, false, n), m);
    assert Step(Out(s, m, p, Recheck(was), false, n), GiveUp(m)) == Out(s, m, p, Park, false, n);
    hide Step;
  }
}

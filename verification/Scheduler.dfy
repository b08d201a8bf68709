/**
 The scheduler of src/rt/sched.c as whole operations: every M runs schedule, s_findrunnable,
 s_stealwork, p_wake, p_startm, m_stop, t_execute, t_yield1, t_exit and sched_spawn, interleaved with
 the others at every change of shared state. A local run queue is the sequence of its live tasks (what
 module RunqSafety proves a ring to be), and runnext and the ring are changed in separate steps; the
 spinning counter is a separate step from the spinning flag. A panic, a failed assertion and a wait for a
 status that cannot come set `panicked`.
 The fields `place` and `holder` are bookkeeping that no step reads.
 */
module Scheduler {
  import opened Base
  import GlobalQueue
  import Ring

  type PId = nat
  type MId = nat

  /** TStatus; the other values are not used by any operation modelled. */
  datatype TStatus = TRunnable | TRunning | TDead

  /** Where p_wake returns to: the running task, or schedule about to execute t. */
  datatype Cont = ToTask | ToExec(t: Task, inherit: bool)

  /** Where an M stands. */
  datatype Pc =
    | Sched                                  // entering schedule
    | Find                                   // s_findrunnable, at "top"
    | SpinUp                                 // marked spinning, nmspinning not yet incremented
    | Stealing
    | Stop
    | AfterRelease                           // P handed to the idle list
    | SpinDown                               // no longer spinning, nmspinning not yet decremented
    | Recheck(wasSpinning: bool)
    | ReSpin                                 // got a P again and marked spinning, not yet counted
    | Park
    | Parked                                 // on the idle list of Ms
    | Claimed(claimer: MId)                   // taken off that list by p_startm on another M
    | Woken
    | Starting                               // created by s_newm, its thread not yet in schedule
    | Got(t: Task, inherit: bool)
    | ResetDown(t: Task, inherit: bool)      // m_resetspinning, nmspinning not yet decremented
    | WakeIdle(k: Cont)                      // p_wake, about to load npidle
    | WakeSpin(k: Cont)                      // about to load nmspinning
    | WakeCas(k: Cont)
    | WakeStart(k: Cont)                     // nmspinning went from 0 to 1; p_startm begins
    | WakeUndo(k: Cont)                      // no idle P
    | WakeHand(k: Cont, nm: MId, p: PId)     // holds an idle M and an idle P
    | WakeNew(k: Cont, p: PId)               // holds an idle P, must create an M
    | Exec(t: Task, inherit: bool)
    | Running
    | SpawnPut(kicked: Task, wake: bool)     // holds the runnext that a spawn has replaced
    | YieldPut(t: Task)                      // holds the task that has yielded

  datatype Mach = Mach(pc: Pc, p: Option<PId>, spinning: bool, curt: Option<Task>, nextp: Option<PId>)

  datatype Proc = Proc(ring: seq<Task>, next: Option<Task>, free: set<Task>, tick: u32,
                       running: bool, m: Option<MId>)

  datatype Place = InRing(p: PId) | InNext(p: PId) | InGlobal | InHand(m: MId)
                 | InKick(m: MId) | InFree(p: PId) | InGlobalFree | Retired

  datatype Holder = Idle | Owner(m: MId) | Promised(m: MId) | InTransit(m: MId)

  datatype World = World(
    ps: seq<Proc>, ms: map<MId, Mach>,
    gq: seq<Task>, gqSize: nat, gfree: set<Task>, retired: set<Task>,
    idle: seq<PId>, idleMask: set<PId>, npidle: nat, midle: seq<MId>,
    nmspinning: int, status: map<Task, TStatus>,
    panicked: bool,
    place: map<Task, Place>, holder: seq<Holder>)

  datatype Action =
    | Go(m: MId)                                     // the next step, where there is only one
    | FindWork(m: MId, giveUp: bool)                 // giveUp: the two counters read look saturated
    | Steal(m: MId, victim: PId, n: nat)             // n tasks from the front of a ring, or with n == 0 runnext
    | GiveUp(m: MId)                                 // no victim had work; or the queues looked empty
    | CreateM(m: MId, nm: MId)
    | Spawn(m: MId, t: Task, wake: bool)             // t free on this P, or new; wake: the main task has started
    | Yield(m: MId)
    | Exit(m: MId, pool: bool)                       // pool: the task keeps its stack and is kept
    | Refill(m: MId, ts: set<Task>)                  // a batch of free tasks from the global list
    | Spill(m: MId, ts: set<Task>)                   // a batch of free tasks to the global list

  /** The task an M has taken from a queue and not given back. */
  function TaskOf(x: Mach): Option<Task> {
    match x.pc
    case Got(t, _) => Some(t)
    case ResetDown(t, _) => Some(t)
    case Exec(t, _) => Some(t)
    case WakeIdle(k) => KTask(k, x.curt)
    case WakeSpin(k) => KTask(k, x.curt)
    case WakeCas(k) => KTask(k, x.curt)
    case WakeStart(k) => KTask(k, x.curt)
    case WakeUndo(k) => KTask(k, x.curt)
    case WakeHand(k, _, _) => KTask(k, x.curt)
    case WakeNew(k, _) => KTask(k, x.curt)
    case YieldPut(t) => Some(t)
    case _ => x.curt
  }

  function KTask(k: Cont, curt: Option<Task>): Option<Task> {
    match k
    case ToTask => curt
    case ToExec(t, _) => Some(t)
  }

  function Return(k: Cont): Pc {
    match k
    case ToTask => Running
    case ToExec(t, inherit) => Exec(t, inherit)
  }

  function Moved(place: map<Task, Place>, ts: set<Task>, to: Place): map<Task, Place> {
    place + map t | t in ts :: to
  }

  function Members(s: seq<Task>): set<Task> {
    set t | t in s
  }

  function SetM(s: World, m: MId, x: Mach): World {
    s.(ms := s.ms[m := x])
  }

  function SetPc(s: World, m: MId, pc: Pc): World
    requires m in s.ms
  {
    SetM(s, m, s.ms[m].(pc := pc))
  }

  /** s_runqget: the first of n tasks in hand, the others at the end of the local queue. */
  function TakeGlobal(s: World, m: MId, p: PId, max: nat): World
    requires m in s.ms && p < |s.ps|
  {
    var n := GlobalQueue.Batch(s.gqSize, |s.ps|, max);
    if n == 0 || n > |s.gq| then s
    else
      var t, rest := s.gq[0], s.gq[1..n];
      var x := s.ps[p];
      s.(gq := s.gq[n..], gqSize := s.gqSize - n,
         ps := s.ps[p := x.(ring := x.ring + rest)],
         ms := s.ms[m := s.ms[m].(pc := Got(t, false))],
         place := Moved(Moved(s.place, Members(rest), InRing(p)), {t}, InHand(m)))
  }

  /** p_runqget when it finds a task. */
  function TakeLocal(s: World, m: MId, p: PId): World
    requires m in s.ms && p < |s.ps| && (s.ps[p].next.Some? || s.ps[p].ring != [])
  {
    var x := s.ps[p];
    var t := if x.next.Some? then x.next.value else x.ring[0];
    var x2 := if x.next.Some? then x.(next := None) else x.(ring := x.ring[1..]);
    s.(ps := s.ps[p := x2], ms := s.ms[m := s.ms[m].(pc := Got(t, x.next.Some?))],
       place := Moved(s.place, {t}, InHand(m)))
  }

  /** schedule, up to having a task or calling s_findrunnable. */
  function ScheduleStep(s: World, m: MId, p: PId): World
    requires m in s.ms && p < |s.ps|
  {
    var x := s.ps[p];
    if s.ms[m].spinning && (x.next.Some? || x.ring != []) then s.(panicked := true)
    else if x.tick % 61 == 0 && s.gqSize > 0 then TakeGlobal(s, m, p, 1)
    else if x.next.Some? || x.ring != [] then TakeLocal(s, m, p)
    else SetPc(s, m, Find)
  }

  /** s_findrunnable from "top" to s_stealwork or "stop". */
  function FindStep(s: World, m: MId, p: PId, giveUp: bool): World
    requires m in s.ms && p < |s.ps|
  {
    var x := s.ps[p];
    if x.next.Some? || x.ring != [] then TakeLocal(s, m, p)
    else if s.gqSize > 0 then TakeGlobal(s, m, p, 0)
    else if s.ms[m].spinning then SetPc(s, m, Stealing)
    else if giveUp then SetPc(s, m, Stop)
    else SetM(s, m, s.ms[m].(pc := SpinUp, spinning := true))
  }

  /**
   p_runqsteal from P v into P p: n tasks from the front of the ring, or runnext. The thief counted the
   ring before it took them, so n may be the share of a ring that was shorter, or empty.
   */
  function StealStep(s: World, m: MId, p: PId, v: PId, n: nat): World
    requires m in s.ms && p < |s.ps| && v < |s.ps| && p != v
  {
    var x, y := s.ps[p], s.ps[v];
    if 0 < n <= Share(|y.ring|) then
      var t, rest := y.ring[n - 1], y.ring[..n - 1];
      if |x.ring| + |rest| >= 256 then s.(panicked := true)
      else
        s.(ps := s.ps[p := x.(ring := x.ring + rest)][v := y.(ring := y.ring[n..])],
           ms := s.ms[m := s.ms[m].(pc := Got(t, false))],
           place := Moved(Moved(s.place, Members(rest), InRing(p)), {t}, InHand(m)))
    else if n == 0 && y.next.Some? then
      s.(ps := s.ps[v := y.(next := None)],
         ms := s.ms[m := s.ms[m].(pc := Got(y.next.value, false))],
         place := Moved(s.place, {y.next.value}, InHand(m)))
    else s
  }

  /** s_findrunnable at "stop": a last look at the global queue, then the P goes idle. */
  function StopStep(s: World, m: MId, p: PId): World
    requires m in s.ms && p < |s.ps| && p < |s.holder|
  {
    var x := s.ps[p];
    if s.gqSize > 0 then TakeGlobal(s, m, p, 0)
    else if x.m != Some(m) || !x.running || x.next.Some? || x.ring != [] then s.(panicked := true)
    else
      s.(ps := s.ps[p := x.(running := false, m := None)],
         ms := s.ms[m := s.ms[m].(pc := AfterRelease, p := None)],
         idle := [p] + s.idle, idleMask := s.idleMask + {p}, npidle := s.npidle + 1,
         holder := s.holder[p := Idle])
  }

  /** p_acquire of P p by M m, which goes on as `next` says. */
  function Acquire(s: World, m: MId, p: PId, next: Mach): World
    requires m in s.ms
  {
    if p >= |s.ps| || p >= |s.holder| || s.ms[m].p.Some? || s.ps[p].m.Some? || s.ps[p].running then
      s.(panicked := true)
    else
      s.(ps := s.ps[p := s.ps[p].(m := Some(m), running := true)],
         ms := s.ms[m := next.(p := Some(p))],
         holder := s.holder[p := Owner(m)])
  }

  /** s_pidleget. */
  function IdleGet(s: World, m: MId): World
    requires s.idle != []
  {
    var p := s.idle[0];
    s.(idle := s.idle[1..], idleMask := s.idleMask - {p}, npidle := if s.npidle > 0 then s.npidle - 1 else 0,
       holder := if p < |s.holder| then s.holder[p := InTransit(m)] else s.holder)
  }

  /** s_findrunnable finding a non-empty queue after all: take an idle P, if there is one, and retry. */
  function RecheckStep(s: World, m: MId, wasSpinning: bool): World
    requires m in s.ms
  {
    if s.idle == [] then SetPc(s, m, Park)
    else if wasSpinning then Acquire(IdleGet(s, m), m, s.idle[0], s.ms[m].(pc := ReSpin, spinning := true))
    else Acquire(IdleGet(s, m), m, s.idle[0], s.ms[m].(pc := Find))
  }

  /** p_startm, holding the lock: get an idle P and, if there is one, an idle M. */
  function StartStep(s: World, m: MId, k: Cont): World
    requires m in s.ms
  {
    if s.idle == [] then SetPc(s, m, WakeUndo(k))
    else
      var p := s.idle[0];
      var s1 := IdleGet(s, m);
      if s.midle == [] then SetPc(s1, m, WakeNew(k, p))
      else
        var nm := s.midle[0];
        if nm !in s.ms || nm == m then s.(panicked := true)
        else
          s1.(midle := s.midle[1..],
              ms := s.ms[nm := s.ms[nm].(pc := Claimed(m))][m := s.ms[m].(pc := WakeHand(k, nm, p))])
  }

  /** p_startm, after the lock: hand P p and the spinning token to M nm. */
  function HandStep(s: World, m: MId, k: Cont, nm: MId, p: PId): World
    requires m in s.ms
  {
    if nm !in s.ms || nm == m || p >= |s.ps| || p >= |s.holder| then s.(panicked := true)
    else if s.ms[nm].spinning || s.ms[nm].nextp.Some? then s.(panicked := true)
    else if s.ps[p].next.Some? || s.ps[p].ring != [] then s.(panicked := true)
    else
      s.(ms := s.ms[nm := s.ms[nm].(pc := Woken, spinning := true, nextp := Some(p))]
                   [m := s.ms[m].(pc := Return(k))],
         holder := s.holder[p := Promised(nm)])
  }

  /** nmspinning after AtomicSub, or the panic on a negative result. */
  function Uncount(s: World, m: MId, pc: Pc): World
    requires m in s.ms
  {
    if s.nmspinning - 1 < 0 then s.(panicked := true)
    else SetPc(s.(nmspinning := s.nmspinning - 1), m, pc)
  }

  function ExecStep(s: World, m: MId, p: PId, t: Task, inherit: bool): World
    requires m in s.ms && p < |s.ps|
  {
    if t !in s.status || s.status[t] != TRunnable then s.(panicked := true)
    else
      s.(ms := s.ms[m := s.ms[m].(pc := Running, curt := Some(t))],
         status := s.status[t := TRunning],
         ps := if inherit then s.ps else s.ps[p := s.ps[p].(tick := Add32(s.ps[p].tick, 1))])
  }

  /** Marking M m as spinning or not, and counting it: s_stealwork, s_findrunnable, m_resetspinning. */
  function SpinStep(s: World, m: MId): World
    requires m in s.ms
  {
    var x := s.ms[m];
    match x.pc
    case SpinUp => SetPc(s.(nmspinning := s.nmspinning + 1), m, Stealing)
    case ReSpin => SetPc(s.(nmspinning := s.nmspinning + 1), m, Find)
    case Got(t, inherit) =>
      if x.spinning then SetM(s, m, x.(pc := ResetDown(t, inherit), spinning := false))
      else SetPc(s, m, Exec(t, inherit))
    case ResetDown(t, inherit) => Uncount(s, m, WakeIdle(ToExec(t, inherit)))
    case _ => s
  }

  /** p_wake, except for p_startm getting a P. */
  function WakeStep(s: World, m: MId): World
    requires m in s.ms
  {
    match s.ms[m].pc
    case WakeIdle(k) => SetPc(s, m, if s.npidle == 0 then Return(k) else WakeSpin(k))
    case WakeSpin(k) => SetPc(s, m, if s.nmspinning != 0 then Return(k) else WakeCas(k))
    case WakeCas(k) =>
      if s.nmspinning != 0 then SetPc(s, m, Return(k))
      else SetPc(s.(nmspinning := 1), m, WakeStart(k))
    case WakeUndo(k) => Uncount(s, m, Return(k))
    case _ => s
  }

  /** The next step of an M that has a P, where it has no choice. */
  function OwnedStep(s: World, m: MId, p: PId): World
    requires m in s.ms && p < |s.ps| && p < |s.holder|
  {
    match s.ms[m].pc
    case Sched => ScheduleStep(s, m, p)
    case SpinUp => SpinStep(s, m)
    case ReSpin => SpinStep(s, m)
    case Got(_, _) => SpinStep(s, m)
    case ResetDown(_, _) => SpinStep(s, m)
    case Stop => StopStep(s, m, p)
    case WakeIdle(_) => WakeStep(s, m)
    case WakeSpin(_) => WakeStep(s, m)
    case WakeCas(_) => WakeStep(s, m)
    case WakeUndo(_) => WakeStep(s, m)
    case WakeStart(k) => StartStep(s, m, k)
    case WakeHand(k, nm, q) => HandStep(s, m, k, nm, q)
    case Exec(t, inherit) => ExecStep(s, m, p, t, inherit)
    case SpawnPut(t, wake) => PutStep(s, m, p, t, if wake then WakeIdle(ToTask) else Running)
    case YieldPut(t) => PutStep(s, m, p, t, Sched)
    case _ => s
  }

  /** An M woken or created takes the P promised to it. */
  function Arrive(s: World, m: MId): World
    requires m in s.ms && s.ms[m].nextp.Some?
  {
    var x := s.ms[m];
    Acquire(s, m, x.nextp.value,
            if x.pc.Starting? then x.(pc := Sched, nextp := None, spinning := true) else x.(pc := Find, nextp := None))
  }

  /** The next step of an M without a P. */
  function LooseStep(s: World, m: MId): World
    requires m in s.ms
  {
    var x := s.ms[m];
    match x.pc
    case AfterRelease =>
      if x.spinning then SetM(s, m, x.(pc := SpinDown, spinning := false))
      else SetPc(s, m, Recheck(false))
    case SpinDown => Uncount(s, m, Recheck(true))
    case Recheck(wasSpinning) => RecheckStep(s, m, wasSpinning)
    case Park =>
      if x.spinning then s.(panicked := true)
      else SetPc(s.(midle := [m] + s.midle), m, Parked)
    case Woken => if x.nextp.None? then s else Arrive(s, m)
    case Starting => if x.nextp.None? then s else Arrive(s, m)
    case _ => s
  }

  /** The next step of M m, where it has no choice. */
  function GoStep(s: World, m: MId): World
    requires m in s.ms
  {
    var x := s.ms[m];
    if x.p.Some? then if x.p.value < |s.ps| && x.p.value < |s.holder| then OwnedStep(s, m, x.p.value) else s
    else LooseStep(s, m)
  }

  /** s_newm: a new M that will start spinning, with P p. */
  function CreateStep(s: World, m: MId, nm: MId): World
    requires m in s.ms
  {
    if !s.ms[m].pc.WakeNew? || nm in s.ms then s
    else
      var k, p := s.ms[m].pc.k, s.ms[m].pc.p;
      s.(ms := s.ms[nm := Mach(Starting, None, false, None, Some(p))][m := s.ms[m].(pc := Return(k))],
         holder := if p < |s.holder| then s.holder[p := Promised(nm)] else s.holder)
  }

  /** sched_spawn on P p up to p_runqput having swapped t into runnext; the old runnext is then in hand. */
  function SpawnStep(s: World, m: MId, p: PId, t: Task, wake: bool): World
    requires m in s.ms && p < |s.ps|
  {
    var x := s.ps[p];
    if t in s.place && t !in x.free then s                        // neither new nor free here
    else if t in s.status && s.status[t] != TDead then s.(panicked := true)
    else
      var was := x.next;
      var pc2 := if was.Some? then SpawnPut(was.value, wake) else if wake then WakeIdle(ToTask) else Running;
      s.(ps := s.ps[p := x.(free := x.free - {t}, next := Some(t))],
         ms := s.ms[m := s.ms[m].(pc := pc2)],
         status := s.status[t := TRunnable],
         place := Moved(Moved(s.place, if was.Some? then {was.value} else {}, InKick(m)), {t}, InNext(p)))
  }

  /** The rest of p_runqput: the task in hand goes to the end of the ring, once there is room. */
  function PutStep(s: World, m: MId, p: PId, t: Task, pc: Pc): World
    requires m in s.ms && p < |s.ps|
  {
    var x := s.ps[p];
    if |x.ring| >= 256 then s
    else
      s.(ps := s.ps[p := x.(ring := x.ring + [t])], ms := s.ms[m := s.ms[m].(pc := pc)],
         place := Moved(s.place, {t}, InRing(p)))
  }

  /** t_yield1 on P p, up to p_runqput. */
  function YieldStep(s: World, m: MId, t: Task): World
    requires m in s.ms
  {
    if t !in s.status || s.status[t] != TRunning then s.(panicked := true)
    else s.(ms := s.ms[m := s.ms[m].(pc := YieldPut(t), curt := None)], status := s.status[t := TRunnable])
  }

  /** t_exit on P p. */
  function ExitStep(s: World, m: MId, p: PId, t: Task, pool: bool): World
    requires m in s.ms && p < |s.ps|
  {
    var x := s.ps[p];
    var s1 := s.(ms := s.ms[m := s.ms[m].(pc := Sched, curt := None)], status := s.status[t := TDead]);
    if t !in s.status || s.status[t] != TRunning then s.(panicked := true)
    else if pool then
      s1.(ps := s.ps[p := x.(free := x.free + {t})], place := Moved(s.place, {t}, InFree(p)))
    else
      s1.(retired := s.retired + {t}, place := Moved(s.place, {t}, Retired))
  }

  function RefillStep(s: World, p: PId, ts: set<Task>): World
    requires p < |s.ps|
  {
    if !(ts <= s.gfree) then s
    else
      s.(gfree := s.gfree - ts, ps := s.ps[p := s.ps[p].(free := s.ps[p].free + ts)],
         place := Moved(s.place, ts, InFree(p)))
  }

  function SpillStep(s: World, p: PId, ts: set<Task>): World
    requires p < |s.ps|
  {
    if !(ts <= s.ps[p].free) then s
    else
      s.(gfree := s.gfree + ts, ps := s.ps[p := s.ps[p].(free := s.ps[p].free - ts)],
         place := Moved(s.place, ts, InGlobalFree))
  }

  predicate HasP(s: World, x: Mach) {
    x.p.Some? && x.p.value < |s.ps|
  }

  /** One step of the scheduler. An action its M is not ready for changes nothing. */
  function Step(s: World, a: Action): World {
    if a.m !in s.ms || s.panicked then s
    else
      var x := s.ms[a.m];
      match a
      case Go(m) => GoStep(s, m)
      case CreateM(m, nm) => CreateStep(s, m, nm)
      case GiveUp(m) =>
        if x.pc.Stealing? then SetPc(s, m, Stop)
        else if x.pc.Recheck? then SetPc(s, m, Park)
        else s
      case FindWork(m, giveUp) =>
        if x.pc.Find? && HasP(s, x) then FindStep(s, m, x.p.value, giveUp) else s
      case Steal(m, v, n) =>
        if x.pc.Stealing? && HasP(s, x) && v < |s.ps| && v != x.p.value && v !in s.idleMask
        then StealStep(s, m, x.p.value, v, n) else s
      case Spawn(m, t, wake) =>
        if x.pc.Running? && HasP(s, x) then SpawnStep(s, m, x.p.value, t, wake) else s
      case Yield(m) =>
        if x.pc.Running? && HasP(s, x) && x.curt.Some? then YieldStep(s, m, x.curt.value) else s
      case Exit(m, pool) =>
        if x.pc.Running? && HasP(s, x) && x.curt.Some? then ExitStep(s, m, x.p.value, x.curt.value, pool) else s
      case Refill(m, ts) => if x.pc.Running? && HasP(s, x) then RefillStep(s, x.p.value, ts) else s
      case Spill(m, ts) => if x.pc.Sched? && !x.spinning && HasP(s, x) then SpillStep(s, x.p.value, ts) else s
  }
}

/**
 What every step of module Scheduler keeps: each task is in exactly one place with the status that
 place calls for, each P has exactly one holder, and the spinning counter counts the spinning tokens.
 */
module SchedulerInv {
  import opened Base
  import GlobalQueue
  import Ring
  import opened Scheduler

  // ---------- tasks

  /** The old runnext that an M holds in the middle of a spawn. */
  function KickOf(pc: Pc): Option<Task> {
    if pc.SpawnPut? then Some(pc.kicked) else None
  }

  predicate InPlace(s: World, t: Task, q: Place) {
    match q
    case InRing(p) => p < |s.ps| && t in s.ps[p].ring
    case InNext(p) => p < |s.ps| && s.ps[p].next == Some(t)
    case InGlobal => t in s.gq
    case InHand(m) => m in s.ms && TaskOf(s.ms[m]) == Some(t)
    case InKick(m) => m in s.ms && KickOf(s.ms[m].pc) == Some(t)
    case InFree(p) => p < |s.ps| && t in s.ps[p].free
    case InGlobalFree => t in s.gfree
    case Retired => t in s.retired
  }

  ghost predicate OnePlaceEach(s: World) {
    forall t: Task, q: Place :: InPlace(s, t, q) <==> t in s.place && s.place[t] == q
  }

  predicate QueuesOk(s: World) {
    && NoDup(s.gq) && s.gqSize == |s.gq|
    && forall p :: 0 <= p < |s.ps| ==> NoDup(s.ps[p].ring) && |s.ps[p].ring| <= 256
  }

  /** The status schedimpl.h documents for a task in place q. */
  function StatusIn(s: World, t: Task, q: Place): TStatus {
    match q
    case InRing(_) => TRunnable
    case InNext(_) => TRunnable
    case InGlobal => TRunnable
    case InHand(m) => if m in s.ms && s.ms[m].curt == Some(t) then TRunning else TRunnable
    case InKick(_) => TRunnable
    case InFree(_) => TDead
    case InGlobalFree => TDead
    case Retired => TDead
  }

  predicate StatusOk(s: World) {
    && s.status.Keys == s.place.Keys
    && forall t :: t in s.place ==> s.status[t] == StatusIn(s, t, s.place[t])
  }

  ghost predicate Tasks(s: World) {
    OnePlaceEach(s) && QueuesOk(s) && StatusOk(s)
  }

  // ---------- processors

  function Carried(pc: Pc): Option<PId> {
    match pc
    case WakeHand(_, _, p) => Some(p)
    case WakeNew(_, p) => Some(p)
    case _ => None
  }

  predicate Holds(s: World, p: PId, h: Holder) {
    match h
    case Idle => p in s.idle
    case Owner(m) => m in s.ms && s.ms[m].p == Some(p)
    case Promised(m) => m in s.ms && s.ms[m].nextp == Some(p)
    case InTransit(m) => m in s.ms && Carried(s.ms[m].pc) == Some(p)
  }

  ghost predicate OneHolderEach(s: World) {
    && |s.holder| == |s.ps|
    && forall p: PId, h: Holder :: Holds(s, p, h) <==> p < |s.holder| && s.holder[p] == h
  }

  predicate ProcOk(x: Proc, h: Holder) {
    match h
    case Owner(m) => x.running && x.m == Some(m)
    case _ => !x.running && x.m.None? && x.ring == [] && x.next.None?
  }

  predicate IdleOk(s: World) {
    NoDup(s.idle) && s.npidle == |s.idle| && s.idleMask == set p | p in s.idle
  }

  ghost predicate Procs(s: World) {
    && OneHolderEach(s) && IdleOk(s)
    && forall p :: 0 <= p < |s.ps| ==> ProcOk(s.ps[p], s.holder[p])
  }

  // ---------- machines

  predicate HasNoP(pc: Pc) {
    pc.AfterRelease? || pc.SpinDown? || pc.Recheck? || pc.Park? || pc.Parked? || pc.Claimed? || pc.Woken?
    || pc.Starting?
  }

  /** The continuation of a p_wake in progress. */
  function WakeCont(pc: Pc): Option<Cont> {
    match pc
    case WakeIdle(k) => Some(k)
    case WakeSpin(k) => Some(k)
    case WakeCas(k) => Some(k)
    case WakeStart(k) => Some(k)
    case WakeUndo(k) => Some(k)
    case WakeHand(k, _, _) => Some(k)
    case WakeNew(k, _) => Some(k)
    case _ => None
  }

  predicate MachOk(x: Mach) {
    && (x.p.None? <==> HasNoP(x.pc))
    && (x.nextp.Some? <==> x.pc.Woken? || x.pc.Starting?)
    && (x.curt.Some? <==> x.pc.Running? || x.pc.SpawnPut? || WakeCont(x.pc) == Some(ToTask))
    && (x.pc.SpinUp? || x.pc.Stealing? || x.pc.ReSpin? || x.pc.Woken? ==> x.spinning)
    && (x.spinning ==> x.pc.Sched? || x.pc.Find? || x.pc.SpinUp? || x.pc.Stealing? || x.pc.Stop?
                       || x.pc.AfterRelease? || x.pc.ReSpin? || x.pc.Woken? || x.pc.Got?)
  }

  /** M m must have an empty local queue when it is here. */
  predicate MustBeEmpty(x: Mach) {
    x.pc.SpinUp? || x.pc.Stealing? || x.pc.Stop? || (x.pc.Sched? && x.spinning)
  }

  predicate MachsOk(s: World) {
    && (forall m :: m in s.ms ==> MachOk(s.ms[m]))
    && (forall m :: m in s.ms && MustBeEmpty(s.ms[m]) && HasP(s, s.ms[m]) ==>
          s.ps[s.ms[m].p.value].ring == [] && s.ps[s.ms[m].p.value].next.None?)
  }

  ghost predicate ParkedOk(s: World) {
    && NoDup(s.midle)
    && (forall m :: m in s.midle <==> m in s.ms && s.ms[m].pc.Parked?)
    && (forall m :: m in s.ms && s.ms[m].pc.WakeHand? ==>
          s.ms[m].pc.nm in s.ms && s.ms[s.ms[m].pc.nm].pc == Claimed(m))
    && (forall m :: m in s.ms && s.ms[m].pc.Claimed? ==>
          && s.ms[m].pc.claimer in s.ms && s.ms[s.ms[m].pc.claimer].pc.WakeHand?
          && s.ms[s.ms[m].pc.claimer].pc.nm == m)
  }

  // ---------- spinning

  /** M x holds one unit of nmspinning: added by it, or for it, and not yet subtracted. */
  predicate Token(x: Mach) {
    || (x.spinning && !x.pc.SpinUp? && !x.pc.ReSpin?)
    || x.pc.SpinDown? || x.pc.ResetDown? || x.pc.Starting?
    || x.pc.WakeStart? || x.pc.WakeUndo? || x.pc.WakeHand? || x.pc.WakeNew?
  }

  function Tokens(ms: map<MId, Mach>): set<MId> {
    set m | m in ms && Token(ms[m])
  }

  predicate SpinOk(s: World) {
    s.nmspinning == |Tokens(s.ms)|
  }

  ghost predicate Inv(s: World) {
    Tasks(s) && Procs(s) && MachsOk(s) && ParkedOk(s) && SpinOk(s) && !s.panicked
  }

  // ---------- counting tokens

  function Unit(x: Mach): int {
    if Token(x) then 1 else 0
  }

  lemma TokensOne(ms: map<MId, Mach>, m: MId, x: Mach)
    ensures |Tokens(ms[m := x])| == |Tokens(ms)| + Unit(x) - (if m in ms then Unit(ms[m]) else 0)
  {
    hide Token;
    var a, b := Tokens(ms), Tokens(ms[m := x]);
    var c := a - {m};
    assert b - {m} == c;
    if m in a { assert a == c + {m}; } else { assert a == c; }
    if m in b { assert b == c + {m}; } else { assert b == c; }
  }

  // ---------- steps that touch one M and the counter only

  /** M x can become M y without anything else noticing. */
  predicate SameLinks(x: Mach, y: Mach) {
    && x.p == y.p && x.nextp == y.nextp && x.curt == y.curt && TaskOf(x) == TaskOf(y) && KickOf(x.pc) == KickOf(y.pc)
    && Carried(x.pc) == Carried(y.pc) && x.pc.Parked? == y.pc.Parked?
    && !x.pc.Claimed? && !y.pc.Claimed? && !x.pc.WakeHand? && !y.pc.WakeHand?
  }

  function Local(s: World, m: MId, y: Mach, n: int): World {
    s.(nmspinning := n, ms := s.ms[m := y])
  }

  lemma LocalTasks(s: World, m: MId, y: Mach, n: int)
    requires Tasks(s) && m in s.ms && SameLinks(s.ms[m], y)
    ensures Tasks(Local(s, m, y, n))
  {
    hide TaskOf, Carried;
    var s2 := Local(s, m, y, n);
    forall t: Task, q: Place ensures InPlace(s2, t, q) <==> InPlace(s, t, q) { }
  }

  lemma LocalProcs(s: World, m: MId, y: Mach, n: int)
    requires Procs(s) && m in s.ms && SameLinks(s.ms[m], y)
    ensures Procs(Local(s, m, y, n))
  {
    hide TaskOf, Carried;
    var s2 := Local(s, m, y, n);
    forall p: PId, h: Holder ensures Holds(s2, p, h) <==> Holds(s, p, h) { }
  }

  lemma LocalStepKept(s: World, m: MId, y: Mach, n: int)
    requires Inv(s) && m in s.ms && SameLinks(s.ms[m], y) && MachOk(y)
    requires n == s.nmspinning + Unit(y) - Unit(s.ms[m])
    requires MustBeEmpty(y) && HasP(s, y) ==> s.ps[y.p.value].ring == [] && s.ps[y.p.value].next.None?
    ensures Inv(Local(s, m, y, n))
  {
    hide Tasks, Procs, MachOk, MustBeEmpty, Unit, Tokens, TaskOf, Carried;
    TokensOne(s.ms, m, y);
    LocalTasks(s, m, y, n);
    LocalProcs(s, m, y, n);
  }

  // ---------- steps of an M that has a P, moving tasks between queues

  predicate NoNewWork(x: Proc, y: Proc) {
    (x.ring == [] ==> y.ring == []) && (x.next.None? ==> y.next.None?)
  }

  /** M x, which has its P in hand, can become y. */
  predicate MachMoves(x: Mach, y: Mach) {
    && Unit(y) == Unit(x) && MachOk(y) && !MustBeEmpty(y) && y.p == x.p && y.nextp == x.nextp
    && Carried(y.pc) == Carried(x.pc) && y.p.Some?
    && !y.pc.WakeHand? && !x.pc.WakeHand? && !y.pc.Claimed? && !x.pc.Claimed? && !x.pc.Parked? && !y.pc.Parked?
  }

  /** From s to s2 only M m, the queues and the tasks change, and only the P of m may gain work. */
  predicate QueueStep(s: World, s2: World, m: MId, y: Mach) {
    && m in s.ms && s2.ms == s.ms[m := y] && s2.midle == s.midle && s2.nmspinning == s.nmspinning
    && s2.holder == s.holder && s2.idle == s.idle && s2.idleMask == s.idleMask && s2.npidle == s.npidle
    && s2.panicked == s.panicked && MachMoves(s.ms[m], y) && HasP(s, y)
    && |s2.ps| == |s.ps|
    && forall q :: 0 <= q < |s.ps| ==>
         && s2.ps[q].running == s.ps[q].running && s2.ps[q].m == s.ps[q].m
         && (Some(q) != y.p ==> NoNewWork(s.ps[q], s2.ps[q]))
  }

  /** The same for a step that changes no P but the one of M m. */
  predicate OwnStep(s: World, s2: World, m: MId, p: PId, y: Mach) {
    && m in s.ms && p < |s.ps| && |s2.ps| == |s.ps|
    && s2 == s.(ps := s.ps[p := s2.ps[p]], ms := s.ms[m := y], gq := s2.gq, gqSize := s2.gqSize, gfree := s2.gfree,
                retired := s2.retired, place := s2.place, status := s2.status)
    && s2.ps[p].running == s.ps[p].running && s2.ps[p].m == s.ps[p].m
  }

  lemma OwnIsQueue(s: World, s2: World, m: MId, p: PId, y: Mach)
    requires OwnStep(s, s2, m, p, y) && MachMoves(s.ms[m], y) && s.ms[m].p == Some(p)
    ensures QueueStep(s, s2, m, y)
  {
    hide Unit, MachOk, MustBeEmpty, Carried;
  }

  lemma QueueProcs(s: World, s2: World, m: MId, y: Mach)
    requires Procs(s) && QueueStep(s, s2, m, y)
    ensures Procs(s2)
  {
    hide MachOk, MustBeEmpty, Unit, Carried;
    forall p: PId, h: Holder ensures Holds(s2, p, h) <==> Holds(s, p, h) { }
    assert Holds(s, y.p.value, Owner(m));
  }

  lemma QueueMachs(s: World, s2: World, m: MId, y: Mach)
    requires Procs(s) && MachsOk(s) && QueueStep(s, s2, m, y)
    ensures MachsOk(s2)
  {
    hide MachOk, MustBeEmpty, Unit, Carried, IdleOk, ProcOk;
    assert Holds(s, y.p.value, Owner(m));
    forall i | i in s2.ms && MustBeEmpty(s2.ms[i]) && HasP(s2, s2.ms[i])
      ensures s2.ps[s2.ms[i].p.value].ring == [] && s2.ps[s2.ms[i].p.value].next.None?
    {
      assert i != m;
      assert Holds(s, s.ms[i].p.value, Owner(i));
    }
  }

  lemma QueueStepKept(s: World, s2: World, m: MId, y: Mach)
    requires Inv(s) && QueueStep(s, s2, m, y) && Tasks(s2)
    ensures Inv(s2)
  {
    hide MachOk, MustBeEmpty, Carried, Procs, Tasks, MachsOk, Unit, Tokens;
    QueueProcs(s, s2, m, y);
    QueueMachs(s, s2, m, y);
    TokensOne(s.ms, m, y);
  }

  lemma OwnStepKept(s: World, s2: World, m: MId, p: PId, y: Mach)
    requires Ready(s, m, p) && OwnStep(s, s2, m, p, y) && MachMoves(s.ms[m], y) && Tasks(s2)
    ensures Inv(s2)
  {
    hide Inv, OwnStep, MachMoves, QueueStep;
    OwnIsQueue(s, s2, m, p, y);
    QueueStepKept(s, s2, m, y);
  }

  // ---------- sequences without duplicates

  lemma NoDupConcat<A>(a: seq<A>, b: seq<A>)
    ensures NoDup(a + b) <==> NoDup(a) && NoDup(b) && forall t :: t in a ==> t !in b
  {
    if NoDup(a + b) {
      forall i, j | 0 <= i < j < |a| ensures a[i] != a[j] { assert (a + b)[i] != (a + b)[j]; }
      forall i, j | 0 <= i < j < |b| ensures b[i] != b[j] {
        assert (a + b)[|a| + i] != (a + b)[|a| + j];
      }
      forall i, j | 0 <= i < |a| && 0 <= j < |b| ensures a[i] != b[j] {
        assert (a + b)[i] == a[i] && (a + b)[|a| + j] == b[j];
      }
    }
    if NoDup(a) && NoDup(b) && forall t :: t in a ==> t !in b {
      forall i, j | 0 <= i < j < |a + b| ensures (a + b)[i] != (a + b)[j] {
        if i < |a| <= j { assert a[i] in a && b[j - |a|] in b; }
      }
    }
  }

  /** A queue cut after its first n elements. */
  lemma Cut<A>(s: seq<A>, n: nat)
    requires NoDup(s) && n <= |s|
    ensures NoDup(s[..n]) && NoDup(s[n..])
    ensures forall t :: t in s <==> t in s[..n] || t in s[n..]
    ensures forall t :: t in s[..n] ==> t !in s[n..]
  {
    assert s == s[..n] + s[n..];
    NoDupConcat(s[..n], s[n..]);
  }

  lemma CutHead<A>(s: seq<A>)
    requires NoDup(s) && s != []
    ensures NoDup(s[1..])
    ensures forall t :: t in s[1..] <==> t in s && t != s[0]
  {
    assert s == [s[0]] + s[1..];
    NoDupConcat([s[0]], s[1..]);
    assert s[0] in [s[0]];
    assert forall t :: t in s <==> t in [s[0]] + s[1..];
  }

  // ---------- the steps that move tasks

  predicate EmptyHanded(x: Mach) {
    TaskOf(x).None? && KickOf(x.pc).None? && x.curt.None?
  }

  /** An M that looks for work may find some: nothing else about it changes. */
  lemma GotMach(x: Mach, y: Mach)
    requires MachOk(x) && (x.pc.Find? || x.pc.Stop? || x.pc.Sched? || x.pc.Stealing?)
    requires y.pc.Got? && y == x.(pc := y.pc)
    ensures MachMoves(x, y)
    ensures EmptyHanded(x)
  {
  }

  /** What a step of M m with P p may rely on. */
  ghost predicate Ready(s: World, m: MId, p: PId) {
    Inv(s) && m in s.ms && p < |s.ps| && s.ms[m].p == Some(p)
  }

  /** Tasks `rest` moved from place src to the ring of P p, and t0 to the hand of M m: seen at t and q. */
  predicate TakenAt(s: World, s2: World, m: MId, p: PId, src: Place, t0: Task, rest: seq<Task>, t: Task, q: Place) {
    InPlace(s2, t, q) <==>
      || (t == t0 && q == InHand(m))
      || (t in rest && q == InRing(p))
      || (InPlace(s, t, q) && !(q == src && (t == t0 || t in rest)))
  }

  ghost predicate Taken(s: World, s2: World, m: MId, p: PId, src: Place, t0: Task, rest: seq<Task>) {
    && (src.InRing? || src.InNext? || src.InGlobal?) && (src == InRing(p) ==> rest == [])
    && InPlace(s, t0, src) && t0 !in rest && (forall t :: t in rest ==> InPlace(s, t, src))
    && s2.place.Keys == s.place.Keys && s2.status == s.status
    && (forall t :: t in s.place ==>
          s2.place[t] == if t == t0 then InHand(m) else if t in rest then InRing(p) else s.place[t])
    && m in s.ms && m in s2.ms && s2.ms == s.ms[m := s2.ms[m]] && s.ms[m].curt.None? && s2.ms[m].curt.None?
  }

  lemma MovedIn(place: map<Task, Place>, ts: set<Task>, to: Place)
    requires ts <= place.Keys
    ensures Moved(place, ts, to).Keys == place.Keys
    ensures forall t :: t in place ==> Moved(place, ts, to)[t] == if t in ts then to else place[t]
  {
  }

  /** What Taken asks of the bookkeeping, from how the step functions write it. */
  lemma TakenPlaces(s: World, p: PId, m: MId, src: Place, t0: Task, rest: seq<Task>)
    requires OnePlaceEach(s) && InPlace(s, t0, src) && t0 !in rest && forall t :: t in rest ==> InPlace(s, t, src)
    ensures t0 in s.place && Members(rest) <= s.place.Keys
    ensures var place2 := Moved(Moved(s.place, Members(rest), InRing(p)), {t0}, InHand(m));
      && place2.Keys == s.place.Keys
      && forall t :: t in s.place ==>
          place2[t] == if t == t0 then InHand(m) else if t in rest then InRing(p) else s.place[t]
    ensures Moved(s.place, Members([]), InRing(p)) == s.place
  {
    hide InPlace, Moved;
    MovedIn(s.place, Members(rest), InRing(p));
    MovedIn(Moved(s.place, Members(rest), InRing(p)), {t0}, InHand(m));
    MovedIn(s.place, Members([]), InRing(p));
  }

  /** A step that only takes waiting tasks, one of them in hand, keeps Tasks if the queues stay in order. */
  lemma TakeTasks(s: World, s2: World, m: MId, p: PId, src: Place, t0: Task, rest: seq<Task>)
    requires Tasks(s) && QueuesOk(s2) && Taken(s, s2, m, p, src, t0, rest)
    requires forall t, q :: TakenAt(s, s2, m, p, src, t0, rest, t, q)
    ensures Tasks(s2)
  {
    hide InPlace, QueuesOk, TaskOf;
    forall t: Task, q: Place ensures InPlace(s2, t, q) <==> t in s2.place && s2.place[t] == q {
      assert TakenAt(s, s2, m, p, src, t0, rest, t, q);
      assert InPlace(s, t, q) <==> t in s.place && s.place[t] == q;
    }
    assert s2.place.Keys == s.place.Keys;
  }

  lemma TakeLocalAt(s: World, m: MId, p: PId, t: Task, q: Place)
    requires QueuesOk(s) && m in s.ms && p < |s.ps| && EmptyHanded(s.ms[m])
    requires s.ps[p].next.Some? || s.ps[p].ring != []
    ensures var x := s.ps[p];
      TakenAt(s, TakeLocal(s, m, p), m, p, if x.next.Some? then InNext(p) else InRing(p),
              if x.next.Some? then x.next.value else x.ring[0], [], t, q)
  {
    if s.ps[p].next.None? { CutHead(s.ps[p].ring); }
  }

  lemma TakeLocalTasks(s: World, m: MId, p: PId)
    requires Tasks(s) && m in s.ms && p < |s.ps| && EmptyHanded(s.ms[m])
    requires s.ps[p].next.Some? || s.ps[p].ring != []
    ensures Tasks(TakeLocal(s, m, p))
  {
    hide TakenAt, Moved;
    var x := s.ps[p];
    var t0 := if x.next.Some? then x.next.value else x.ring[0];
    var src := if x.next.Some? then InNext(p) else InRing(p);
    var s2 := TakeLocal(s, m, p);
    forall t, q ensures TakenAt(s, s2, m, p, src, t0, [], t, q) { TakeLocalAt(s, m, p, t, q); }
    if x.next.None? { CutHead(x.ring); }
    TakenPlaces(s, p, m, src, t0, []);
    TakeTasks(s, s2, m, p, src, t0, []);
  }

  lemma TakeLocalKept(s: World, m: MId, p: PId)
    requires Ready(s, m, p) && (s.ps[p].next.Some? || s.ps[p].ring != [])
    requires s.ms[m].pc.Find? || (s.ms[m].pc.Sched? && !s.ms[m].spinning)
    ensures Inv(TakeLocal(s, m, p))
  {
    var s2 := TakeLocal(s, m, p);
    assert MachOk(s.ms[m]);
    hide Inv, MachMoves, Moved;
    GotMach(s.ms[m], s2.ms[m]);
    TakeLocalTasks(s, m, p);
    assert OwnStep(s, s2, m, p, s2.ms[m]);
    hide OwnStep, TakeLocal;
    OwnStepKept(s, s2, m, p, s2.ms[m]);
  }

  /** The n tasks s_runqget takes, and what stays. */
  lemma GlobalCut(gq: seq<Task>, n: nat)
    requires NoDup(gq) && 1 <= n <= |gq|
    ensures NoDup(gq[1..n]) && NoDup(gq[n..])
    ensures forall t :: t in gq <==> t == gq[0] || t in gq[1..n] || t in gq[n..]
    ensures forall t :: t in gq[1..n] ==> t != gq[0] && t !in gq[n..]
    ensures gq[0] !in gq[n..]
  {
    Cut(gq, n);
    CutHead(gq[..n]);
    assert gq[..n][1..] == gq[1..n] && gq[..n][0] == gq[0];
    assert gq[..n][0] in gq[..n];
  }

  lemma TakeGlobalAt(s: World, m: MId, p: PId, max: nat, n: nat, t: Task, q: Place)
    requires QueuesOk(s) && m in s.ms && p < |s.ps| && EmptyHanded(s.ms[m])
    requires n == GlobalQueue.Batch(s.gqSize, |s.ps|, max) && 1 <= n <= |s.gq|
    ensures TakenAt(s, TakeGlobal(s, m, p, max), m, p, InGlobal, s.gq[0], s.gq[1..n], t, q)
  {
    hide GlobalQueue.Batch;
    GlobalCut(s.gq, n);
    hide QueuesOk, NoDup;
    var s2 := TakeGlobal(s, m, p, max);
    assert t in s2.ps[p].ring <==> t in s.ps[p].ring || t in s.gq[1..n];
    assert TaskOf(s2.ms[m]) == Some(s.gq[0]);
    hide TaskOf;
  }

  lemma TakeGlobalQueues(s: World, m: MId, p: PId, max: nat, n: nat)
    requires QueuesOk(s) && m in s.ms && p < |s.ps| && (s.ps[p].ring == [] || n == 1)
    requires n == GlobalQueue.Batch(s.gqSize, |s.ps|, max) && 1 <= n <= 128 && n <= |s.gq|
    ensures QueuesOk(TakeGlobal(s, m, p, max))
  {
    hide GlobalQueue.Batch;
    GlobalCut(s.gq, n);
    assert TakeGlobal(s, m, p, max).ps[p].ring == if n == 1 then s.ps[p].ring else s.gq[1..n];
  }

  lemma TakeGlobalTaken(s: World, m: MId, p: PId, max: nat, n: nat)
    requires Tasks(s) && m in s.ms && p < |s.ps| && s.ms[m].curt.None?
    requires n == GlobalQueue.Batch(s.gqSize, |s.ps|, max) && 1 <= n <= |s.gq|
    ensures Taken(s, TakeGlobal(s, m, p, max), m, p, InGlobal, s.gq[0], s.gq[1..n])
  {
    hide GlobalQueue.Batch, StatusOk;
    GlobalCut(s.gq, n);
    hide NoDup, TaskOf, Moved;
    var s2 := TakeGlobal(s, m, p, max);
    assert s2.place == Moved(Moved(s.place, Members(s.gq[1..n]), InRing(p)), {s.gq[0]}, InHand(m));
    assert s2.status == s.status && s2.ms == s.ms[m := s2.ms[m]] && s2.ms[m].curt.None?;
    assert forall t :: t in s.gq ==> InPlace(s, t, InGlobal);
    hide TakeGlobal, InPlace, QueuesOk;
    TakenPlaces(s, p, m, InGlobal, s.gq[0], s.gq[1..n]);
  }

  lemma TakeGlobalTasks(s: World, m: MId, p: PId, max: nat)
    requires Tasks(s) && m in s.ms && p < |s.ps| && EmptyHanded(s.ms[m])
    requires s.gqSize > 0 && (s.ps[p].ring == [] || max == 1)
    ensures Tasks(TakeGlobal(s, m, p, max))
  {
    var n := GlobalQueue.Batch(s.gqSize, |s.ps|, max);
    assert 1 <= n <= 128 && n <= |s.gq| && (max == 1 ==> n == 1);
    hide GlobalQueue.Batch, TakenAt, Taken, QueuesOk, TakeGlobal, TaskOf, OnePlaceEach, StatusOk;
    var s2 := TakeGlobal(s, m, p, max);
    var rest := s.gq[1..n];
    forall t, q ensures TakenAt(s, s2, m, p, InGlobal, s.gq[0], rest, t, q) { TakeGlobalAt(s, m, p, max, n, t, q); }
    TakeGlobalQueues(s, m, p, max, n);
    TakeGlobalTaken(s, m, p, max, n);
    TakeTasks(s, s2, m, p, InGlobal, s.gq[0], rest);
  }

  lemma TakeGlobalMach(s: World, m: MId, p: PId, max: nat)
    requires s.gqSize == |s.gq| > 0 && m in s.ms && p < |s.ps|
    ensures var s2 := TakeGlobal(s, m, p, max);
      m in s2.ms && s2.ms[m].pc.Got? && s2.ms == s.ms[m := s2.ms[m]] && s2.ms[m] == s.ms[m].(pc := s2.ms[m].pc)
  {
    assert 1 <= GlobalQueue.Batch(s.gqSize, |s.ps|, max) <= |s.gq|;
  }

  lemma TakeGlobalKept(s: World, m: MId, p: PId, max: nat)
    requires Ready(s, m, p) && s.gqSize > 0 && (s.ps[p].ring == [] || max == 1)
    requires s.ms[m].pc.Find? || s.ms[m].pc.Stop? || s.ms[m].pc.Sched?
    ensures Inv(TakeGlobal(s, m, p, max))
  {
    var s2 := TakeGlobal(s, m, p, max);
    assert MachOk(s.ms[m]) && s.gqSize == |s.gq|;
    hide Inv, MachMoves, Moved;
    TakeGlobalMach(s, m, p, max);
    GotMach(s.ms[m], s2.ms[m]);
    TakeGlobalTasks(s, m, p, max);
    hide GlobalQueue.Batch;
    assert OwnStep(s, s2, m, p, s2.ms[m]);
    hide OwnStep, TakeGlobal;
    OwnStepKept(s, s2, m, p, s2.ms[m]);
  }

  /** The n tasks a thief takes from the front of a ring: all but the last are kept in order. */
  lemma RingCut(ring: seq<Task>, n: nat)
    requires NoDup(ring) && 1 <= n <= |ring|
    ensures NoDup(ring[..n - 1]) && NoDup(ring[n..])
    ensures forall t :: t in ring <==> t == ring[n - 1] || t in ring[..n - 1] || t in ring[n..]
    ensures forall t :: t in ring[..n - 1] ==> t != ring[n - 1] && t !in ring[n..]
    ensures ring[n - 1] !in ring[n..]
  {
    Cut(ring, n - 1);
    CutHead(ring[n - 1..]);
    assert ring[n - 1..][1..] == ring[n..] && ring[n - 1..][0] == ring[n - 1];
    assert ring[n - 1..][0] in ring[n - 1..];
  }

  lemma StealAt(s: World, m: MId, p: PId, v: PId, n: nat, t: Task, q: Place)
    requires QueuesOk(s) && m in s.ms && p < |s.ps| && v < |s.ps| && p != v
    requires EmptyHanded(s.ms[m]) && s.ps[p].ring == [] && 0 < n <= Share(|s.ps[v].ring|)
    ensures var y := s.ps[v].ring;
      TakenAt(s, StealStep(s, m, p, v, n), m, p, InRing(v), y[n - 1], y[..n - 1], t, q)
  {
    var y := s.ps[v].ring;
    RingCut(y, n);
    hide QueuesOk, NoDup, Share;
    var s2 := StealStep(s, m, p, v, n);
    assert s2.ps[p].ring == y[..n - 1];
    assert TaskOf(s2.ms[m]) == Some(y[n - 1]);
    hide TaskOf;
  }

  lemma StealNextAt(s: World, m: MId, p: PId, v: PId, t: Task, q: Place)
    requires m in s.ms && p < |s.ps| && v < |s.ps| && p != v
    requires EmptyHanded(s.ms[m]) && s.ps[v].next.Some?
    ensures TakenAt(s, StealStep(s, m, p, v, 0), m, p, InNext(v), s.ps[v].next.value, [], t, q)
  {
  }

  lemma StealRingTasks(s: World, m: MId, p: PId, v: PId, n: nat)
    requires Tasks(s) && m in s.ms && p < |s.ps| && v < |s.ps| && p != v
    requires EmptyHanded(s.ms[m]) && s.ps[p].ring == [] && 0 < n <= Share(|s.ps[v].ring|)
    ensures Tasks(StealStep(s, m, p, v, n))
  {
    hide TakenAt, Moved;
    var y := s.ps[v].ring;
    var s2 := StealStep(s, m, p, v, n);
    var t0, rest := y[n - 1], y[..n - 1];
    forall t, q ensures TakenAt(s, s2, m, p, InRing(v), t0, rest, t, q) { StealAt(s, m, p, v, n, t, q); }
    RingCut(y, n);
    assert s2.ps[p].ring == rest;
    TakenPlaces(s, p, m, InRing(v), t0, rest);
    TakeTasks(s, s2, m, p, InRing(v), t0, rest);
  }

  lemma StealNextTasks(s: World, m: MId, p: PId, v: PId)
    requires Tasks(s) && m in s.ms && p < |s.ps| && v < |s.ps| && p != v
    requires EmptyHanded(s.ms[m]) && s.ps[v].next.Some?
    ensures Tasks(StealStep(s, m, p, v, 0))
  {
    hide TakenAt, Moved;
    var s2 := StealStep(s, m, p, v, 0);
    var t0 := s.ps[v].next.value;
    forall t, q ensures TakenAt(s, s2, m, p, InNext(v), t0, [], t, q) { StealNextAt(s, m, p, v, t, q); }
    TakenPlaces(s, p, m, InNext(v), t0, []);
    TakeTasks(s, s2, m, p, InNext(v), t0, []);
  }

  lemma StealTasks(s: World, m: MId, p: PId, v: PId, n: nat)
    requires Tasks(s) && m in s.ms && p < |s.ps| && v < |s.ps| && p != v
    requires EmptyHanded(s.ms[m]) && s.ps[p].ring == []
    ensures Tasks(StealStep(s, m, p, v, n))
  {
    hide Tasks, TaskOf;
    if 0 < n <= Share(|s.ps[v].ring|) {
      StealRingTasks(s, m, p, v, n);
    } else if n == 0 && s.ps[v].next.Some? {
      StealNextTasks(s, m, p, v);
    }
  }

  lemma StealMach(s: World, m: MId, p: PId, v: PId, n: nat)
    requires m in s.ms && p < |s.ps| && v < |s.ps| && v != p && s.ps[p].ring == [] && |s.ps[v].ring| <= 256
    ensures var s2 := StealStep(s, m, p, v, n);
      || s2 == s
      || (m in s2.ms && s2.ms[m].pc.Got? && s2.ms == s.ms[m := s2.ms[m]] && s2.ms[m] == s.ms[m].(pc := s2.ms[m].pc))
  {
  }

  lemma StealFrame(s: World, m: MId, p: PId, v: PId, n: nat, y: Mach)
    requires QueuesOk(s) && m in s.ms && p < |s.ps| && v < |s.ps| && v != p && s.ps[p].ring == []
    requires var s2 := StealStep(s, m, p, v, n); s2.ms == s.ms[m := y]
    requires MachMoves(s.ms[m], y) && y.p == Some(p)
    ensures QueueStep(s, StealStep(s, m, p, v, n), m, y)
  {
    hide MachMoves, Moved, Share, NoDup;
  }

  lemma StealKept(s: World, m: MId, p: PId, v: PId, n: nat)
    requires Ready(s, m, p) && v < |s.ps| && v != p && s.ms[m].pc.Stealing?
    ensures Inv(StealStep(s, m, p, v, n))
  {
    var s2 := StealStep(s, m, p, v, n);
    assert s.ps[p].ring == [] && MachOk(s.ms[m]) && |s.ps[v].ring| <= 256;
    hide Inv, StealStep, MachMoves, QueueStep, QueuesOk;
    StealMach(s, m, p, v, n);
    if s2 != s {
      GotMach(s.ms[m], s2.ms[m]);
      StealTasks(s, m, p, v, n);
      StealFrame(s, m, p, v, n, s2.ms[m]);
      QueueStepKept(s, s2, m, s2.ms[m]);
    }
  }

  // ---------- the steps of a running task

  /** Tasks ts moved from place src (or from nowhere) to dst: seen at t and q. */
  predicate ShiftedAt(s: World, s2: World, ts: set<Task>, src: Option<Place>, dst: Place, t: Task, q: Place) {
    InPlace(s2, t, q) <==> (t in ts && q == dst) || (InPlace(s, t, q) && !(t in ts && Some(q) == src))
  }

  lemma ShiftPlaces(s: World, s2: World, ts: set<Task>, src: Option<Place>, dst: Place)
    requires OnePlaceEach(s) && s2.place == Moved(s.place, ts, dst) && src != Some(dst)
    requires forall t :: t in ts ==> if src.Some? then InPlace(s, t, src.value) else t !in s.place
    requires forall t, q :: ShiftedAt(s, s2, ts, src, dst, t, q)
    ensures OnePlaceEach(s2)
  {
    hide InPlace;
    forall t: Task, q: Place ensures InPlace(s2, t, q) <==> t in s2.place && s2.place[t] == q {
      assert ShiftedAt(s, s2, ts, src, dst, t, q);
      assert InPlace(s, t, q) <==> t in s.place && s.place[t] == q;
    }
  }

  lemma ExecAt(s: World, m: MId, p: PId, t: Task, q: Place)
    requires m in s.ms && p < |s.ps| && s.ms[m].pc.Exec?
    ensures InPlace(ExecStep(s, m, p, s.ms[m].pc.t, s.ms[m].pc.inherit), t, q) <==> InPlace(s, t, q)
  {
  }

  /** t_execute finds the task runnable: its t_casstatus never waits. */
  lemma ExecReady(s: World, m: MId)
    requires Tasks(s) && m in s.ms && s.ms[m].pc.Exec? && s.ms[m].curt.None?
    ensures var t := s.ms[m].pc.t;
      t in s.place && s.place[t] == InHand(m) && t in s.status && s.status[t] == TRunnable
  {
    hide QueuesOk;
    assert InPlace(s, s.ms[m].pc.t, InHand(m));
  }

  lemma ExecMach(x: Mach, t: Task)
    requires MachOk(x) && x.pc.Exec? && x.pc.t == t
    ensures MachMoves(x, x.(pc := Running, curt := Some(t))) && x.curt.None?
  {
  }

  lemma ExecKept(s: World, m: MId, p: PId)
    requires Ready(s, m, p) && s.ms[m].pc.Exec?
    ensures Inv(ExecStep(s, m, p, s.ms[m].pc.t, s.ms[m].pc.inherit))
  {
    var t0, inherit := s.ms[m].pc.t, s.ms[m].pc.inherit;
    assert MachOk(s.ms[m]);
    ExecMach(s.ms[m], t0);
    ExecReady(s, m);
    hide InPlace, Inv, OnePlaceEach, StatusOk, MachMoves, NoDup;
    var s2 := ExecStep(s, m, p, t0, inherit);
    forall t: Task, q: Place ensures InPlace(s2, t, q) <==> InPlace(s, t, q) { ExecAt(s, m, p, t, q); }
    ExecTasks(s, s2, m, t0);
    hide Tasks;
    assert s2.ps == s.ps[p := s2.ps[p]];
    assert OwnStep(s, s2, m, p, s2.ms[m]);
    hide OwnStep, ExecStep;
    OwnStepKept(s, s2, m, p, s2.ms[m]);
  }

  lemma ExecTasks(s: World, s2: World, m: MId, t0: Task)
    requires Tasks(s) && QueuesOk(s2) && m in s.ms && s2.ms.Keys == s.ms.Keys && s.ms[m].curt.None?
    requires forall t, q :: InPlace(s2, t, q) <==> InPlace(s, t, q)
    requires t0 in s.place && s.place[t0] == InHand(m) && s2.place == s.place && s2.status == s.status[t0 := TRunning]
    requires forall i :: i in s.ms ==> s2.ms[i].curt == if i == m then Some(t0) else s.ms[i].curt
    ensures Tasks(s2)
  {
    hide InPlace;
  }

  /** A running task is in its M's hand, so t_casstatus from TRunning never waits. */
  lemma RunningReady(s: World, m: MId)
    requires Tasks(s) && MachsOk(s) && m in s.ms && s.ms[m].pc.Running?
    ensures s.ms[m].curt.Some? && InPlace(s, s.ms[m].curt.value, InHand(m))
    ensures var t := s.ms[m].curt.value;
      t in s.place && s.place[t] == InHand(m) && t in s.status && s.status[t] == TRunning
  {
    hide QueuesOk;
    assert MachOk(s.ms[m]);
    assert InPlace(s, s.ms[m].curt.value, InHand(m));
  }

  lemma RunEndMach(x: Mach, y: Mach)
    requires MachOk(x) && x.pc.Running?
    requires y == x.(pc := y.pc, curt := None) && (y.pc.Sched? || y.pc.YieldPut?)
    ensures MachMoves(x, y)
  {
  }

  lemma YieldAt(s: World, m: MId, t0: Task, t: Task, q: Place)
    requires m in s.ms && s.ms[m].pc.Running? && s.ms[m].curt == Some(t0)
    ensures InPlace(YieldStep(s, m, t0), t, q) <==> InPlace(s, t, q)
  {
  }

  lemma YieldTasks(s: World, m: MId, t0: Task)
    requires Tasks(s) && m in s.ms && s.ms[m].pc.Running? && s.ms[m].curt == Some(t0)
    requires t0 in s.place && s.place[t0] == InHand(m) && s.status[t0] == TRunning
    ensures Tasks(YieldStep(s, m, t0))
  {
    hide InPlace, NoDup;
    forall t, q ensures InPlace(YieldStep(s, m, t0), t, q) <==> InPlace(s, t, q) { YieldAt(s, m, t0, t, q); }
  }

  lemma YieldKept(s: World, m: MId, p: PId)
    requires Ready(s, m, p) && s.ms[m].pc.Running?
    ensures s.ms[m].curt.Some? && Inv(YieldStep(s, m, s.ms[m].curt.value))
  {
    assert MachOk(s.ms[m]);
    RunningReady(s, m);
    hide Inv, MachMoves;
    YieldTasks(s, m, s.ms[m].curt.value);
    var s2 := YieldStep(s, m, s.ms[m].curt.value);
    RunEndMach(s.ms[m], s2.ms[m]);
    assert OwnStep(s, s2, m, p, s2.ms[m]);
    hide OwnStep, YieldStep;
    OwnStepKept(s, s2, m, p, s2.ms[m]);
  }

  /** The place a put takes its task from. */
  function PutFrom(m: MId, pc: Pc): Place {
    if pc.SpawnPut? then InKick(m) else InHand(m)
  }

  /** A put in progress, and what comes after it. */
  predicate Putting(x: Mach, t0: Task, pc: Pc) {
    || (x.pc.SpawnPut? && x.pc.kicked == t0 && (pc.Running? || pc == WakeIdle(ToTask)))
    || (x.pc == YieldPut(t0) && pc.Sched?)
  }

  lemma PutAt(s: World, m: MId, p: PId, t0: Task, pc: Pc, t: Task, q: Place)
    requires m in s.ms && p < |s.ps| && Putting(s.ms[m], t0, pc) && MachOk(s.ms[m])
    requires |s.ps[p].ring| < 256
    ensures ShiftedAt(s, PutStep(s, m, p, t0, pc), {t0}, Some(PutFrom(m, s.ms[m].pc)), InRing(p), t, q)
    ensures InPlace(s, t0, PutFrom(m, s.ms[m].pc))
  {
    hide Moved;
  }

  lemma PutTasks(s: World, m: MId, p: PId, t0: Task, pc: Pc)
    requires Tasks(s) && m in s.ms && p < |s.ps| && Putting(s.ms[m], t0, pc) && MachOk(s.ms[m])
    ensures Tasks(PutStep(s, m, p, t0, pc))
  {
    if |s.ps[p].ring| < 256 {
      var s2 := PutStep(s, m, p, t0, pc);
      var src := PutFrom(m, s.ms[m].pc);
      PutAt(s, m, p, t0, pc, t0, src);
      assert !InPlace(s, t0, InRing(p));
      NoDupConcat(s.ps[p].ring, [t0]);
      assert s2.ms[m].curt == s.ms[m].curt;
      hide InPlace, NoDup, MachOk, Putting;
      forall t, q ensures ShiftedAt(s, s2, {t0}, Some(src), InRing(p), t, q) { PutAt(s, m, p, t0, pc, t, q); }
      ShiftPlaces(s, s2, {t0}, Some(src), InRing(p));
      hide ShiftedAt;
    }
  }

  lemma PutMach(x: Mach, t0: Task, pc: Pc)
    requires MachOk(x) && Putting(x, t0, pc)
    ensures MachMoves(x, x.(pc := pc))
  {
  }

  /** The ring put of a spawn or a yield, which waits while the ring is full. */
  lemma PutKept(s: World, m: MId, p: PId, t0: Task, pc: Pc)
    requires Ready(s, m, p) && Putting(s.ms[m], t0, pc)
    ensures Inv(PutStep(s, m, p, t0, pc))
  {
    assert MachOk(s.ms[m]);
    PutMach(s.ms[m], t0, pc);
    if |s.ps[p].ring| < 256 {
      hide Inv, MachMoves, MachOk, Putting, Moved;
      PutTasks(s, m, p, t0, pc);
      var s2 := PutStep(s, m, p, t0, pc);
      assert OwnStep(s, s2, m, p, s2.ms[m]);
      hide OwnStep, PutStep;
      OwnStepKept(s, s2, m, p, s2.ms[m]);
    }
  }

  lemma ExitAt(s: World, m: MId, p: PId, t0: Task, pool: bool, t: Task, q: Place)
    requires m in s.ms && p < |s.ps| && s.ms[m].pc.Running? && s.ms[m].curt == Some(t0)
    requires t0 in s.status && s.status[t0] == TRunning
    ensures ShiftedAt(s, ExitStep(s, m, p, t0, pool), {t0}, Some(InHand(m)), if pool then InFree(p) else Retired, t, q)
  {
  }

  lemma ExitTasks(s: World, m: MId, p: PId, t0: Task, pool: bool)
    requires Tasks(s) && m in s.ms && p < |s.ps| && s.ms[m].pc.Running? && s.ms[m].curt == Some(t0)
    requires InPlace(s, t0, InHand(m)) && t0 in s.status && s.status[t0] == TRunning
    ensures Tasks(ExitStep(s, m, p, t0, pool))
  {
    var s2 := ExitStep(s, m, p, t0, pool);
    var dst := if pool then InFree(p) else Retired;
    hide InPlace, NoDup;
    forall t, q ensures ShiftedAt(s, s2, {t0}, Some(InHand(m)), dst, t, q) { ExitAt(s, m, p, t0, pool, t, q); }
    ShiftPlaces(s, s2, {t0}, Some(InHand(m)), dst);
  }

  lemma ExitKept(s: World, m: MId, p: PId, pool: bool)
    requires Ready(s, m, p) && s.ms[m].pc.Running?
    ensures s.ms[m].curt.Some? && Inv(ExitStep(s, m, p, s.ms[m].curt.value, pool))
  {
    assert MachOk(s.ms[m]);
    RunningReady(s, m);
    hide Inv, MachMoves, MachOk, InPlace, Moved;
    ExitTasks(s, m, p, s.ms[m].curt.value, pool);
    var s2 := ExitStep(s, m, p, s.ms[m].curt.value, pool);
    RunEndMach(s.ms[m], s2.ms[m]);
    assert s2.ps == s.ps[p := s2.ps[p]];
    assert OwnStep(s, s2, m, p, s2.ms[m]);
    hide OwnStep, ExitStep;
    OwnStepKept(s, s2, m, p, s2.ms[m]);
  }

  lemma FreeAt(s: World, p: PId, ts: set<Task>, refill: bool, t: Task, q: Place)
    requires p < |s.ps| && ts <= if refill then s.gfree else s.ps[p].free
    ensures var s2 := if refill then RefillStep(s, p, ts) else SpillStep(s, p, ts);
      ShiftedAt(s, s2, ts, Some(if refill then InGlobalFree else InFree(p)),
                if refill then InFree(p) else InGlobalFree, t, q)
  {
    hide Moved;
  }

  lemma FreeQueues(s: World, p: PId, ts: set<Task>, refill: bool)
    requires QueuesOk(s) && p < |s.ps|
    ensures QueuesOk(if refill then RefillStep(s, p, ts) else SpillStep(s, p, ts))
  {
    hide NoDup, Moved;
  }

  lemma FreeTasks(s: World, p: PId, ts: set<Task>, refill: bool)
    requires Tasks(s) && p < |s.ps|
    ensures Tasks(if refill then RefillStep(s, p, ts) else SpillStep(s, p, ts))
  {
    var s2 := if refill then RefillStep(s, p, ts) else SpillStep(s, p, ts);
    var src := if refill then InGlobalFree else InFree(p);
    var dst := if refill then InFree(p) else InGlobalFree;
    if ts <= if refill then s.gfree else s.ps[p].free {
      assert forall t :: t in ts ==> InPlace(s, t, src);
      hide InPlace, NoDup;
      forall t, q ensures ShiftedAt(s, s2, ts, Some(src), dst, t, q) { FreeAt(s, p, ts, refill, t, q); }
      hide ShiftedAt, Moved;
      assert s2.place == Moved(s.place, ts, dst);
      ShiftPlaces(s, s2, ts, Some(src), dst);
      FreeQueues(s, p, ts, refill);
    }
  }

  lemma FreeMach(x: Mach)
    requires MachOk(x) && (x.pc.Running? || (x.pc.Sched? && !x.spinning))
    ensures MachMoves(x, x)
  {
  }

  lemma FreeKept(s: World, m: MId, p: PId, ts: set<Task>, refill: bool)
    requires Ready(s, m, p) && if refill then s.ms[m].pc.Running? else s.ms[m].pc.Sched? && !s.ms[m].spinning
    ensures Inv(if refill then RefillStep(s, p, ts) else SpillStep(s, p, ts))
  {
    assert MachOk(s.ms[m]);
    FreeMach(s.ms[m]);
    hide Inv, MachMoves, Moved;
    FreeTasks(s, p, ts, refill);
    var s2 := if refill then RefillStep(s, p, ts) else SpillStep(s, p, ts);
    assert s2.ms == s.ms[m := s.ms[m]] && s2.ps == s.ps[p := s2.ps[p]];
    assert OwnStep(s, s2, m, p, s.ms[m]);
    hide OwnStep, RefillStep, SpillStep;
    OwnStepKept(s, s2, m, p, s.ms[m]);
  }

  // ---------- sched_spawn

  /** The half of a spawn that takes the old runnext in hand, or there is none, and moves M m on. */
  function Hold(s: World, m: MId, p: PId, wake: bool): World
    requires m in s.ms && p < |s.ps|
  {
    var x := s.ps[p];
    if x.next.None? then SetPc(s, m, if wake then WakeIdle(ToTask) else Running)
    else
      s.(ps := s.ps[p := x.(next := None)], ms := s.ms[m := s.ms[m].(pc := SpawnPut(x.next.value, wake))],
         place := Moved(s.place, {x.next.value}, InKick(m)))
  }

  /** The half that puts t0 into runnext. */
  function Insert(s: World, p: PId, t0: Task): World
    requires p < |s.ps|
  {
    s.(ps := s.ps[p := s.ps[p].(free := s.ps[p].free - {t0}, next := Some(t0))],
       status := s.status[t0 := TRunnable], place := Moved(s.place, {t0}, InNext(p)))
  }

  lemma HoldAt(s: World, m: MId, p: PId, wake: bool, t: Task, q: Place)
    requires m in s.ms && p < |s.ps| && s.ps[p].next.Some? && s.ms[m].pc.Running?
    ensures ShiftedAt(s, Hold(s, m, p, wake), {s.ps[p].next.value}, Some(InNext(p)), InKick(m), t, q)
  {
  }

  lemma HoldTasks(s: World, m: MId, p: PId, wake: bool)
    requires Tasks(s) && m in s.ms && p < |s.ps| && s.ms[m].pc.Running?
    ensures Tasks(Hold(s, m, p, wake))
  {
    var s2 := Hold(s, m, p, wake);
    if s.ps[p].next.None? {
      hide Tasks;
      assert s2 == Local(s, m, s2.ms[m], s.nmspinning);
      LocalTasks(s, m, s2.ms[m], s.nmspinning);
    } else {
      HoldNextTasks(s, m, p, wake);
    }
  }

  lemma HoldNextTasks(s: World, m: MId, p: PId, wake: bool)
    requires Tasks(s) && m in s.ms && p < |s.ps| && s.ms[m].pc.Running? && s.ps[p].next.Some?
    ensures Tasks(Hold(s, m, p, wake))
  {
    var s2 := Hold(s, m, p, wake);
    var t0 := s.ps[p].next.value;
    assert InPlace(s, t0, InNext(p));
    hide InPlace, NoDup;
    forall t, q ensures ShiftedAt(s, s2, {t0}, Some(InNext(p)), InKick(m), t, q) { HoldAt(s, m, p, wake, t, q); }
    hide ShiftedAt;
    ShiftPlaces(s, s2, {t0}, Some(InNext(p)), InKick(m));
  }

  lemma InsertAt(s: World, p: PId, t0: Task, t: Task, q: Place)
    requires p < |s.ps| && s.ps[p].next.None?
    ensures ShiftedAt(s, Insert(s, p, t0), {t0}, if t0 in s.ps[p].free then Some(InFree(p)) else None, InNext(p), t, q)
  {
    hide TaskOf, KickOf;
  }

  lemma InsertTasks(s: World, p: PId, t0: Task)
    requires Tasks(s) && p < |s.ps| && s.ps[p].next.None? && (t0 in s.ps[p].free || t0 !in s.place)
    ensures Tasks(Insert(s, p, t0))
  {
    var s2 := Insert(s, p, t0);
    var src := if t0 in s.ps[p].free then Some(InFree(p)) else None;
    assert if src.Some? then InPlace(s, t0, src.value) else t0 !in s.place;
    hide InPlace, NoDup;
    forall t, q ensures ShiftedAt(s, s2, {t0}, src, InNext(p), t, q) { InsertAt(s, p, t0, t, q); }
    ShiftPlaces(s, s2, {t0}, src, InNext(p));
    hide ShiftedAt;
  }

  /** A task that is free here is dead, so the assertion of sched_spawn holds. */
  lemma SpawnDead(s: World, p: PId, t0: Task)
    requires Tasks(s) && p < |s.ps| && (t0 in s.ps[p].free || t0 !in s.place)
    ensures t0 in s.status ==> s.status[t0] == TDead
    ensures s.ps[p].next != Some(t0)
    ensures s.ps[p].next.Some? ==> s.ps[p].next.value in s.place
  {
    hide QueuesOk;
    if t0 in s.ps[p].free { assert InPlace(s, t0, InFree(p)); }
    if s.ps[p].next.Some? { assert InPlace(s, s.ps[p].next.value, InNext(p)); }
  }

  /** A spawn is these two halves. */
  lemma SpawnSplit(s: World, m: MId, p: PId, t0: Task, wake: bool)
    requires m in s.ms && p < |s.ps| && (t0 in s.ps[p].free || t0 !in s.place)
    requires t0 in s.status ==> s.status[t0] == TDead
    ensures SpawnStep(s, m, p, t0, wake) == Insert(Hold(s, m, p, wake), p, t0)
  {
    hide Moved;
    assert Moved(s.place, {}, InKick(m)) == s.place by { MovedIn(s.place, {}, InKick(m)); }
  }

  lemma HoldFrame(s: World, m: MId, p: PId, t0: Task, wake: bool)
    requires m in s.ms && p < |s.ps|
    requires s.ps[p].next != Some(t0) && (s.ps[p].next.Some? ==> s.ps[p].next.value in s.place)
    ensures Hold(s, m, p, wake).ps[p].next.None? && Hold(s, m, p, wake).ps[p].free == s.ps[p].free
    ensures t0 in Hold(s, m, p, wake).place <==> t0 in s.place
  {
  }

  /** The spawning M goes on running, looks whether to wake another one, or has to put the old runnext. */
  lemma SpawnMach(x: Mach, y: Mach)
    requires MachOk(x) && x.pc.Running? && y == x.(pc := y.pc)
    requires y.pc == WakeIdle(ToTask) || y.pc.Running? || y.pc.SpawnPut?
    ensures MachMoves(x, y)
  {
  }

  lemma SpawnFrame(s: World, m: MId, p: PId, t0: Task, wake: bool)
    requires m in s.ms && p < |s.ps|
    ensures var s2 := Insert(Hold(s, m, p, wake), p, t0);
      m in s2.ms && OwnStep(s, s2, m, p, s2.ms[m])
      && s2.ms[m] == s.ms[m].(pc := s2.ms[m].pc)
      && (s2.ms[m].pc == WakeIdle(ToTask) || s2.ms[m].pc.Running? || s2.ms[m].pc.SpawnPut?)
  {
    hide Moved;
  }

  lemma SpawnKept(s: World, m: MId, p: PId, t0: Task, wake: bool)
    requires Ready(s, m, p) && s.ms[m].pc.Running?
    ensures Inv(SpawnStep(s, m, p, t0, wake))
  {
    if t0 in s.ps[p].free || t0 !in s.place {
      assert MachOk(s.ms[m]);
      hide Inv, Tasks, MachMoves, MachOk, OwnStep, SpawnStep, Hold, Insert;
      SpawnDead(s, p, t0);
      SpawnSplit(s, m, p, t0, wake);
      HoldFrame(s, m, p, t0, wake);
      HoldTasks(s, m, p, wake);
      InsertTasks(Hold(s, m, p, wake), p, t0);
      SpawnFrame(s, m, p, t0, wake);
      var s2 := SpawnStep(s, m, p, t0, wake);
      SpawnMach(s.ms[m], s2.ms[m]);
      OwnStepKept(s, s2, m, p, s2.ms[m]);
    }
  }

  // ---------- steps that pass a P from hand to hand

  /** No task moves: the queues are as they were, and every M has the task it had. */
  ghost predicate TasksStay(s: World, s2: World) {
    && s2.gq == s.gq && s2.gqSize == s.gqSize && s2.gfree == s.gfree && s2.retired == s.retired
    && s2.place == s.place && s2.status == s.status && |s2.ps| == |s.ps|
    && (forall i :: 0 <= i < |s.ps| ==>
          s2.ps[i].ring == s.ps[i].ring && s2.ps[i].next == s.ps[i].next && s2.ps[i].free == s.ps[i].free)
    && s.ms.Keys <= s2.ms.Keys
    && (forall m :: m in s2.ms ==>
          if m in s.ms then
            && TaskOf(s2.ms[m]) == TaskOf(s.ms[m]) && s2.ms[m].curt == s.ms[m].curt
            && KickOf(s2.ms[m].pc) == KickOf(s.ms[m].pc)
          else TaskOf(s2.ms[m]).None? && s2.ms[m].curt.None? && KickOf(s2.ms[m].pc).None?)
  }

  lemma StayTasks(s: World, s2: World)
    requires Tasks(s) && TasksStay(s, s2)
    ensures Tasks(s2)
  {
    hide TaskOf, NoDup;
    forall t: Task, q: Place ensures InPlace(s2, t, q) <==> InPlace(s, t, q) { }
  }

  /** P p0 passed from holder h1 to h2: seen at p and h. */
  predicate PassedAt(s: World, s2: World, p0: PId, h1: Holder, h2: Holder, p: PId, h: Holder) {
    Holds(s2, p, h) <==> (p == p0 && h == h2) || (Holds(s, p, h) && !(p == p0 && h == h1))
  }

  lemma PassProcs(s: World, s2: World, p0: PId, h1: Holder, h2: Holder)
    requires Procs(s) && p0 < |s.ps| && Holds(s, p0, h1) && h1 != h2 && s2.holder == s.holder[p0 := h2]
    requires forall p, h :: PassedAt(s, s2, p0, h1, h2, p, h)
    requires IdleOk(s2) && |s2.ps| == |s.ps| && ProcOk(s2.ps[p0], h2)
    requires forall i :: 0 <= i < |s.ps| && i != p0 ==> s2.ps[i] == s.ps[i]
    ensures Procs(s2)
  {
    hide Holds, ProcOk, IdleOk;
    forall p: PId, h: Holder ensures Holds(s2, p, h) <==> p < |s2.holder| && s2.holder[p] == h {
      assert PassedAt(s, s2, p0, h1, h2, p, h);
      assert Holds(s, p, h) <==> p < |s.holder| && s.holder[p] == h;
    }
  }

  /** Rings unchanged, so an M that must be empty still is. */
  lemma PassMachs(s: World, s2: World)
    requires MachsOk(s) && |s2.ps| == |s.ps|
    requires forall i :: 0 <= i < |s.ps| ==> s2.ps[i].ring == s.ps[i].ring && s2.ps[i].next == s.ps[i].next
    requires forall m :: m in s2.ms ==> MachOk(s2.ms[m])
    requires forall m :: m in s2.ms && MustBeEmpty(s2.ms[m]) && HasP(s2, s2.ms[m]) ==>
      || (m in s.ms && MustBeEmpty(s.ms[m]) && s.ms[m].p == s2.ms[m].p)
      || (s.ps[s2.ms[m].p.value].ring == [] && s.ps[s2.ms[m].p.value].next.None?)
    ensures MachsOk(s2)
  {
    hide MachOk, MustBeEmpty;
  }

  lemma OwnerOf(s: World, m: MId, p: PId)
    requires Procs(s) && m in s.ms && s.ms[m].p == Some(p)
    ensures p < |s.ps| && p < |s.holder| && s.holder[p] == Owner(m) && Holds(s, p, Owner(m))
    ensures s.ps[p].running && s.ps[p].m == Some(m) && p !in s.idle && p !in s.idleMask
  {
    assert Holds(s, p, Owner(m)) && !Holds(s, p, Idle);
  }

  lemma StopProcs(s: World, m: MId, p: PId)
    requires Procs(s) && m in s.ms && s.ms[m].p == Some(p) && s.ms[m].pc.Stop? && s.gqSize == 0 && p < |s.ps|
    requires s.ps[p].ring == [] && s.ps[p].next.None? && |s.holder| == |s.ps|
    ensures Procs(StopStep(s, m, p))
  {
    var s2 := StopStep(s, m, p);
    OwnerOf(s, m, p);
    NoDupConcat([p], s.idle);
    forall q: PId, h: Holder ensures PassedAt(s, s2, p, Owner(m), Idle, q, h) { }
    hide Holds, PassedAt;
    PassProcs(s, s2, p, Owner(m), Idle);
  }

  /** One M moves on, no ring changes. */
  predicate OneMach(s: World, s2: World, m: MId, y: Mach) {
    && m in s.ms && s2.ms == s.ms[m := y] && s2.midle == s.midle && |s2.ps| == |s.ps|
    && (forall i :: 0 <= i < |s.ps| ==> s2.ps[i].ring == s.ps[i].ring && s2.ps[i].next == s.ps[i].next)
    && s2.nmspinning == s.nmspinning + Unit(y) - Unit(s.ms[m]) && s2.panicked == s.panicked
    && MachOk(y) && !s.ms[m].pc.Parked? && !y.pc.Parked? && !s.ms[m].pc.Claimed? && !y.pc.Claimed?
    && !s.ms[m].pc.WakeHand? && !y.pc.WakeHand?
    && (MustBeEmpty(y) && HasP(s2, y) ==> s.ps[y.p.value].ring == [] && s.ps[y.p.value].next.None?)
  }

  lemma OneMachParked(s: World, s2: World, m: MId, y: Mach)
    requires ParkedOk(s) && OneMach(s, s2, m, y)
    ensures ParkedOk(s2)
  {
    hide MachOk, MustBeEmpty, Unit, NoDup;
  }

  lemma OneMachKept(s: World, s2: World, m: MId, y: Mach)
    requires Inv(s) && OneMach(s, s2, m, y) && TasksStay(s, s2) && Procs(s2)
    ensures Inv(s2)
  {
    hide MachOk, MustBeEmpty, Unit, Tasks, Tokens, Procs, ParkedOk;
    OneMachParked(s, s2, m, y);
    StayTasks(s, s2);
    PassMachs(s, s2);
    TokensOne(s.ms, m, y);
  }

  lemma StopMach(s: World, m: MId, p: PId)
    requires MachsOk(s) && m in s.ms && s.ms[m].p == Some(p) && s.ms[m].pc.Stop? && s.gqSize == 0 && p < |s.ps|
    requires s.ps[p].m == Some(m) && s.ps[p].running && p < |s.holder|
    ensures OneMach(s, StopStep(s, m, p), m, s.ms[m].(pc := AfterRelease, p := None))
    ensures TasksStay(s, StopStep(s, m, p))
  {
  }

  lemma StopKept(s: World, m: MId, p: PId)
    requires Ready(s, m, p) && s.ms[m].pc.Stop? && p < |s.holder|
    ensures Inv(StopStep(s, m, p))
  {
    hide Tasks, Procs, ParkedOk, SpinOk;
    assert s.ps[p].ring == [] && s.ps[p].next.None?;
    if s.gqSize > 0 {
      TakeGlobalKept(s, m, p, 0);
    } else {
      OwnerOf(s, m, p);
      HolderCount(s);
      StopProcs(s, m, p);
      StopMach(s, m, p);
      hide StopStep, OneMach, TasksStay, MachsOk;
      OneMachKept(s, StopStep(s, m, p), m, s.ms[m].(pc := AfterRelease, p := None));
    }
  }

  lemma HolderCount(s: World)
    requires Procs(s)
    ensures |s.holder| == |s.ps|
  {
  }

  // ---------- taking a P off the idle list

  lemma IdleOf(s: World)
    requires Procs(s) && s.idle != []
    ensures s.idle[0] < |s.ps| && s.idle[0] < |s.holder| && s.holder[s.idle[0]] == Idle && Holds(s, s.idle[0], Idle)
    ensures ProcOk(s.ps[s.idle[0]], Idle)
  {
    assert Holds(s, s.idle[0], Idle);
  }

  lemma IdleCut(s: World)
    requires IdleOk(s) && s.idle != []
    ensures NoDup(s.idle[1..]) && s.npidle - 1 == |s.idle[1..]|
    ensures s.idleMask - {s.idle[0]} == set p | p in s.idle[1..]
    ensures forall p :: p in s.idle[1..] <==> p in s.idle && p != s.idle[0]
  {
    CutHead(s.idle);
  }

  /** s_findrunnable gets an idle P after all. */
  lemma RecheckProcs(s: World, m: MId, was: bool)
    requires Procs(s) && m in s.ms && s.ms[m].p.None? && s.ms[m].pc == Recheck(was) && s.ms[m].nextp.None?
    requires s.idle != []
    ensures Procs(RecheckStep(s, m, was))
  {
    var s2 := RecheckStep(s, m, was);
    var p := s.idle[0];
    IdleOf(s);
    IdleCut(s);
    hide NoDup;
    forall q: PId, h: Holder ensures PassedAt(s, s2, p, Idle, Owner(m), q, h) { }
    hide Holds, PassedAt;
    PassProcs(s, s2, p, Idle, Owner(m));
  }

  /** p_acquire, whatever happened to the idle list: it does not panic, and only M m and P p change. */
  lemma AcquireMach(s: World, s1: World, m: MId, p: PId, next: Mach)
    requires m in s.ms && s1.ms == s.ms && s1.ps == s.ps && p < |s.ps| && p < |s1.holder| && s.ms[m].p.None?
    requires s1.gq == s.gq && s1.gqSize == s.gqSize && s1.gfree == s.gfree && s1.retired == s.retired
    requires s1.place == s.place && s1.status == s.status
    requires s1.midle == s.midle && s1.nmspinning == s.nmspinning && s1.panicked == s.panicked
    requires ProcOk(s.ps[p], Idle)
    requires next.curt == s.ms[m].curt && TaskOf(next.(p := Some(p))) == TaskOf(s.ms[m])
    requires KickOf(next.pc) == KickOf(s.ms[m].pc)
    ensures TasksStay(s, Acquire(s1, m, p, next))
    ensures var s2, y := Acquire(s1, m, p, next), next.(p := Some(p));
      && Unit(y) == Unit(s.ms[m]) && MachOk(y) && !s.ms[m].pc.Parked? && !y.pc.Parked?
      && !s.ms[m].pc.Claimed? && !y.pc.Claimed? && !s.ms[m].pc.WakeHand? && !y.pc.WakeHand?
      ==> OneMach(s, s2, m, y)
  {
    hide TaskOf, Unit, MachOk, MustBeEmpty;
  }

  lemma RecheckMach(s: World, m: MId, was: bool)
    requires Procs(s) && MachsOk(s) && m in s.ms && s.ms[m].pc == Recheck(was) && s.idle != []
    ensures OneMach(s, RecheckStep(s, m, was), m, RecheckStep(s, m, was).ms[m])
    ensures TasksStay(s, RecheckStep(s, m, was))
  {
    IdleOf(s);
    var next := if was then s.ms[m].(pc := ReSpin, spinning := true) else s.ms[m].(pc := Find);
    var y := next.(p := Some(s.idle[0]));
    assert Unit(y) == Unit(s.ms[m]) && MachOk(y) && TaskOf(y) == TaskOf(s.ms[m]);
    hide TaskOf, Unit, MachOk, MustBeEmpty, MachsOk, Procs, OneMach, TasksStay;
    AcquireMach(s, IdleGet(s, m), m, s.idle[0], next);
  }

  lemma RecheckKept(s: World, m: MId, was: bool)
    requires Inv(s) && m in s.ms && s.ms[m].pc == Recheck(was)
    ensures Inv(RecheckStep(s, m, was))
  {
    hide Tasks, Procs, ParkedOk, SpinOk;
    if s.idle == [] {
      LocalStepKept(s, m, s.ms[m].(pc := Park), s.nmspinning);
    } else {
      RecheckProcs(s, m, was);
      RecheckMach(s, m, was);
      hide RecheckStep, OneMach, TasksStay, MachsOk;
      OneMachKept(s, RecheckStep(s, m, was), m, RecheckStep(s, m, was).ms[m]);
    }
  }

  lemma PromiseOf(s: World, m: MId)
    requires Procs(s) && m in s.ms && s.ms[m].nextp.Some?
    ensures var p := s.ms[m].nextp.value;
      p < |s.ps| && p < |s.holder| && s.holder[p] == Promised(m) && Holds(s, p, Promised(m)) && ProcOk(s.ps[p], Idle)
  {
    assert Holds(s, s.ms[m].nextp.value, Promised(m));
  }

  lemma ArriveProcs(s: World, m: MId)
    requires Procs(s) && m in s.ms && s.ms[m].p.None? && s.ms[m].nextp.Some?
    requires s.ms[m].pc.Woken? || s.ms[m].pc.Starting?
    ensures Procs(Arrive(s, m))
  {
    var s2 := Arrive(s, m);
    var p := s.ms[m].nextp.value;
    PromiseOf(s, m);
    forall q: PId, h: Holder ensures PassedAt(s, s2, p, Promised(m), Owner(m), q, h) { }
    hide Holds, PassedAt;
    PassProcs(s, s2, p, Promised(m), Owner(m));
  }

  lemma ArriveKept(s: World, m: MId)
    requires Inv(s) && m in s.ms && (s.ms[m].pc.Woken? || s.ms[m].pc.Starting?) && s.ms[m].nextp.Some?
    ensures Inv(Arrive(s, m))
  {
    hide Tasks, ParkedOk, SpinOk;
    PromiseOf(s, m);
    var x := s.ms[m];
    ArriveProcs(s, m);
    var next := if x.pc.Starting? then x.(pc := Sched, nextp := None, spinning := true)
                else x.(pc := Find, nextp := None);
    var y := next.(p := Some(x.nextp.value));
    assert Unit(y) == Unit(x) && MachOk(y) && TaskOf(y) == TaskOf(x);
    hide TaskOf, Unit, MachOk, MustBeEmpty, MachsOk, Procs, OneMach, TasksStay;
    AcquireMach(s, s, m, x.nextp.value, next);
    OneMachKept(s, Arrive(s, m), m, y);
  }

  // ---------- p_startm and the Ms it starts

  lemma StartNewProcs(s: World, m: MId, k: Cont)
    requires Procs(s) && m in s.ms && s.ms[m].pc == WakeStart(k) && s.idle != [] && s.midle == []
    ensures Procs(StartStep(s, m, k))
  {
    var s2 := StartStep(s, m, k);
    var p := s.idle[0];
    IdleOf(s);
    IdleCut(s);
    hide NoDup;
    forall q: PId, h: Holder ensures PassedAt(s, s2, p, Idle, InTransit(m), q, h) { }
    hide Holds, PassedAt;
    PassProcs(s, s2, p, Idle, InTransit(m));
  }

  lemma StartIdleProcs(s: World, m: MId, k: Cont)
    requires Procs(s) && m in s.ms && s.ms[m].pc == WakeStart(k) && s.idle != [] && s.midle != []
    requires s.midle[0] in s.ms && s.midle[0] != m && s.ms[s.midle[0]].pc.Parked?
    ensures Procs(StartStep(s, m, k))
  {
    var s2 := StartStep(s, m, k);
    var p := s.idle[0];
    IdleOf(s);
    IdleCut(s);
    hide NoDup;
    forall q: PId, h: Holder ensures PassedAt(s, s2, p, Idle, InTransit(m), q, h) { }
    hide Holds, PassedAt;
    PassProcs(s, s2, p, Idle, InTransit(m));
  }

  /** M m moves on to y and M n to z, and no ring changes. */
  predicate TwoMachs(s: World, s2: World, m: MId, y: Mach, n: MId, z: Mach) {
    && m in s.ms && m != n && s2.ms == s.ms[n := z][m := y] && |s2.ps| == |s.ps|
    && (forall i :: 0 <= i < |s.ps| ==> s2.ps[i].ring == s.ps[i].ring && s2.ps[i].next == s.ps[i].next)
    && s2.nmspinning == s.nmspinning && s2.panicked == s.panicked
    && Unit(y) + Unit(z) == Unit(s.ms[m]) + (if n in s.ms then Unit(s.ms[n]) else 0)
    && MachOk(y) && MachOk(z) && !MustBeEmpty(y) && !MustBeEmpty(z)
  }

  lemma TwoMachsKept(s: World, s2: World, m: MId, y: Mach, n: MId, z: Mach)
    requires Inv(s) && TwoMachs(s, s2, m, y, n, z) && TasksStay(s, s2) && Procs(s2) && ParkedOk(s2)
    ensures Inv(s2)
  {
    hide MachOk, MustBeEmpty, Unit, Tasks, Tokens, Procs, ParkedOk;
    StayTasks(s, s2);
    PassMachs(s, s2);
    TokensOne(s.ms, n, z);
    TokensOne(s.ms[n := z], m, y);
  }

  lemma StartNewKept(s: World, m: MId, k: Cont)
    requires Inv(s) && m in s.ms && s.ms[m].pc == WakeStart(k) && s.idle != [] && s.midle == []
    ensures Inv(StartStep(s, m, k))
  {
    hide Tasks, ParkedOk, SpinOk;
    StartNewProcs(s, m, k);
    IdleOf(s);
    var y := s.ms[m].(pc := WakeNew(k, s.idle[0]));
    assert Unit(y) == Unit(s.ms[m]) && MachOk(y) && TaskOf(y) == TaskOf(s.ms[m]);
    hide Procs, TaskOf, Unit, MachOk, MachsOk;
    OneMachKept(s, StartStep(s, m, k), m, y);
  }

  lemma ClaimParked(s: World, s2: World, m: MId, y: Mach, n: MId, z: Mach)
    requires ParkedOk(s) && m in s.ms && s.ms[m].pc.WakeStart? && s.midle != [] && n == s.midle[0]
    requires n in s.ms && s.ms[n].pc.Parked?
    requires s2.ms == s.ms[n := z][m := y] && NoDup(s2.midle)
    requires forall i :: i in s2.midle <==> i in s.midle && i != n
    requires z.pc == Claimed(m) && y.pc.WakeHand? && y.pc.nm == n
    ensures ParkedOk(s2)
  {
    hide NoDup;
  }

  lemma StartIdleParked(s: World, m: MId, k: Cont)
    requires ParkedOk(s) && m in s.ms && s.ms[m].pc == WakeStart(k) && s.idle != [] && s.midle != []
    ensures s.midle[0] in s.ms && s.midle[0] != m && s.ms[s.midle[0]].pc.Parked?
    ensures ParkedOk(StartStep(s, m, k))
  {
    hide NoDup;
    CutHead(s.midle);
    var n := s.midle[0];
    assert n in s.midle;
    var y, z := s.ms[m].(pc := WakeHand(k, n, s.idle[0])), s.ms[n].(pc := Claimed(m));
    var s2 := StartStep(s, m, k);
    assert s2.ms == s.ms[n := z][m := y] && s2.midle == s.midle[1..];
    hide StartStep, ParkedOk;
    ClaimParked(s, s2, m, y, n, z);
  }

  lemma ClaimMachs(x: Mach, y: Mach, k: Cont, n: MId, p: PId, w: Mach, z: Mach, m: MId)
    requires MachOk(x) && x.pc == WakeStart(k) && y == x.(pc := WakeHand(k, n, p))
    requires MachOk(w) && w.pc.Parked? && z == w.(pc := Claimed(m))
    ensures MachOk(y) && !MustBeEmpty(y) && Unit(y) == Unit(x) && TaskOf(y) == TaskOf(x)
    ensures MachOk(z) && !MustBeEmpty(z) && Unit(z) == Unit(w) && TaskOf(z) == TaskOf(w)
  {
  }

  lemma StartIdleKept(s: World, m: MId, k: Cont)
    requires Inv(s) && m in s.ms && s.ms[m].pc == WakeStart(k) && s.idle != [] && s.midle != []
    ensures Inv(StartStep(s, m, k))
  {
    hide Tasks, SpinOk, ParkedOk, Procs, MachOk, MustBeEmpty, TaskOf, Unit;
    StartIdleParked(s, m, k);
    StartIdleProcs(s, m, k);
    IdleOf(s);
    var n := s.midle[0];
    var y, z := s.ms[m].(pc := WakeHand(k, n, s.idle[0])), s.ms[n].(pc := Claimed(m));
    ClaimMachs(s.ms[m], y, k, n, s.idle[0], s.ms[n], z, m);
    hide MachsOk;
    TwoMachsKept(s, StartStep(s, m, k), m, y, n, z);
  }

  lemma CarriedOf(s: World, m: MId, p: PId)
    requires Procs(s) && m in s.ms && Carried(s.ms[m].pc) == Some(p)
    ensures p < |s.ps| && p < |s.holder| && s.holder[p] == InTransit(m) && Holds(s, p, InTransit(m))
    ensures ProcOk(s.ps[p], Idle)
  {
    assert Holds(s, p, InTransit(m));
  }

  lemma HandProcs(s: World, m: MId, k: Cont, n: MId, p: PId)
    requires Procs(s) && m in s.ms && s.ms[m].pc == WakeHand(k, n, p)
    requires n in s.ms && n != m && s.ms[n].nextp.None? && !s.ms[n].spinning && Carried(s.ms[n].pc).None?
    ensures Procs(HandStep(s, m, k, n, p))
  {
    var s2 := HandStep(s, m, k, n, p);
    CarriedOf(s, m, p);
    forall q: PId, h: Holder ensures PassedAt(s, s2, p, InTransit(m), Promised(n), q, h) { }
    hide Holds, PassedAt;
    PassProcs(s, s2, p, InTransit(m), Promised(n));
  }

  lemma HandMachs(x: Mach, y: Mach, k: Cont, n: MId, p: PId, w: Mach, z: Mach, m: MId)
    requires MachOk(x) && x.pc == WakeHand(k, n, p) && y == x.(pc := Return(k))
    requires MachOk(w) && w.pc == Claimed(m) && z == w.(pc := Woken, spinning := true, nextp := Some(p))
    ensures MachOk(y) && !MustBeEmpty(y) && Unit(y) + Unit(z) == Unit(x) + Unit(w) && TaskOf(y) == TaskOf(x)
    ensures MachOk(z) && !MustBeEmpty(z) && TaskOf(z) == TaskOf(w)
    ensures y.pc.Exec? || y.pc.Running?
    ensures w.nextp.None? && !w.spinning && Carried(w.pc).None?
  {
  }

  lemma HandParked(s: World, s2: World, m: MId, y: Mach, n: MId, z: Mach)
    requires ParkedOk(s) && m in s.ms && n in s.ms && s.ms[m].pc.WakeHand? && s.ms[n].pc == Claimed(m)
    requires s2.ms == s.ms[n := z][m := y] && s2.midle == s.midle
    requires (y.pc.Exec? || y.pc.Running?) && z.pc.Woken?
    ensures ParkedOk(s2)
  {
    hide NoDup;
  }

  lemma HandFrame(s: World, m: MId, k: Cont, n: MId, p: PId, y: Mach, z: Mach)
    requires m in s.ms && n in s.ms && n != m && p < |s.ps| && p < |s.holder| && ProcOk(s.ps[p], Idle)
    requires s.ms[n].nextp.None? && !s.ms[n].spinning
    requires y == s.ms[m].(pc := Return(k)) && z == s.ms[n].(pc := Woken, spinning := true, nextp := Some(p))
    requires TaskOf(y) == TaskOf(s.ms[m]) && TaskOf(z) == TaskOf(s.ms[n])
    requires KickOf(y.pc) == KickOf(s.ms[m].pc) && KickOf(z.pc) == KickOf(s.ms[n].pc)
    ensures TasksStay(s, HandStep(s, m, k, n, p))
    ensures var s2 := HandStep(s, m, k, n, p);
      && s2.ms == s.ms[n := z][m := y] && s2.ps == s.ps && s2.nmspinning == s.nmspinning && s2.panicked == s.panicked
      && s2.midle == s.midle
  {
    hide TaskOf;
  }

  lemma HandFacts(s: World, m: MId, k: Cont, n: MId, p: PId)
    requires ParkedOk(s) && MachsOk(s) && m in s.ms && s.ms[m].pc == WakeHand(k, n, p)
    ensures n in s.ms && s.ms[n].pc == Claimed(m) && n != m && MachOk(s.ms[m]) && MachOk(s.ms[n])
    ensures Carried(s.ms[m].pc) == Some(p)
  {
    hide NoDup, MachOk;
  }

  lemma HandKept(s: World, m: MId, k: Cont, n: MId, p: PId)
    requires Inv(s) && m in s.ms && s.ms[m].pc == WakeHand(k, n, p)
    ensures Inv(HandStep(s, m, k, n, p))
  {
    HandFacts(s, m, k, n, p);
    hide ParkedOk, MachsOk, MachOk;
    var y, z := s.ms[m].(pc := Return(k)), s.ms[n].(pc := Woken, spinning := true, nextp := Some(p));
    var s2 := HandStep(s, m, k, n, p);
    hide HandStep, TasksStay, Procs, Tasks, MachsOk, SpinOk, TaskOf, Unit, MachOk, MustBeEmpty, Return, Carried,
         ParkedOk;
    CarriedOf(s, m, p);
    HandMachs(s.ms[m], y, k, n, p, s.ms[n], z, m);
    HandProcs(s, m, k, n, p);
    HandFrame(s, m, k, n, p, y, z);
    HandParked(s, s2, m, y, n, z);
    TwoMachsKept(s, s2, m, y, n, z);
  }

  lemma CreateProcs(s: World, m: MId, n: MId)
    requires Procs(s) && m in s.ms && s.ms[m].pc.WakeNew? && n !in s.ms
    ensures Procs(CreateStep(s, m, n))
  {
    var s2 := CreateStep(s, m, n);
    var p := s.ms[m].pc.p;
    CarriedOf(s, m, p);
    forall q: PId, h: Holder ensures PassedAt(s, s2, p, InTransit(m), Promised(n), q, h) { }
    hide Holds, PassedAt;
    PassProcs(s, s2, p, InTransit(m), Promised(n));
  }

  lemma CreateMachs(x: Mach, y: Mach, z: Mach)
    requires MachOk(x) && x.pc.WakeNew? && y == x.(pc := Return(x.pc.k))
    requires z == Mach(Starting, None, false, None, Some(x.pc.p))
    ensures MachOk(y) && !MustBeEmpty(y) && Unit(y) + Unit(z) == Unit(x) && TaskOf(y) == TaskOf(x)
    ensures MachOk(z) && !MustBeEmpty(z) && TaskOf(z).None?
    ensures y.pc.Exec? || y.pc.Running?
  {
  }

  lemma CreateParked(s: World, s2: World, m: MId, y: Mach, n: MId, z: Mach)
    requires ParkedOk(s) && m in s.ms && n !in s.ms && s.ms[m].pc.WakeNew?
    requires s2.ms == s.ms[n := z][m := y] && s2.midle == s.midle
    requires (y.pc.Exec? || y.pc.Running?) && z.pc.Starting?
    ensures ParkedOk(s2)
  {
    hide NoDup;
  }

  lemma CreateFrame(s: World, m: MId, n: MId, y: Mach, z: Mach)
    requires m in s.ms && n !in s.ms && s.ms[m].pc.WakeNew? && y == s.ms[m].(pc := Return(s.ms[m].pc.k))
    requires z == Mach(Starting, None, false, None, Some(s.ms[m].pc.p))
    requires TaskOf(y) == TaskOf(s.ms[m]) && TaskOf(z).None?
    ensures TasksStay(s, CreateStep(s, m, n))
    ensures var s2 := CreateStep(s, m, n);
      && s2.ms == s.ms[n := z][m := y] && s2.ps == s.ps && s2.nmspinning == s.nmspinning && s2.panicked == s.panicked
      && s2.midle == s.midle
  {
    hide TaskOf;
  }

  lemma CreateKept(s: World, m: MId, n: MId)
    requires Inv(s) && m in s.ms && s.ms[m].pc.WakeNew? && n !in s.ms
    ensures Inv(CreateStep(s, m, n))
  {
    var y, z := s.ms[m].(pc := Return(s.ms[m].pc.k)), Mach(Starting, None, false, None, Some(s.ms[m].pc.p));
    assert MachOk(s.ms[m]);
    CreateMachs(s.ms[m], y, z);
    assert !(n in s.ms);
    CreateProcs(s, m, n);
    var s2 := CreateStep(s, m, n);
    hide CreateStep, TasksStay, Procs, Tasks, MachsOk, SpinOk, TaskOf, Unit, MachOk, MustBeEmpty, Return;
    CreateFrame(s, m, n, y, z);
    CreateParked(s, s2, m, y, n, z);
    hide ParkedOk;
    TwoMachsKept(s, s2, m, y, n, z);
  }

  lemma ParkProcs(s: World, s2: World, m: MId)
    requires Procs(s) && m in s.ms && s.ms[m].pc.Park? && s2.ms == s.ms[m := s.ms[m].(pc := Parked)]
    requires s2.ps == s.ps && s2.holder == s.holder
    requires s2.idle == s.idle && s2.idleMask == s.idleMask && s2.npidle == s.npidle
    ensures Procs(s2)
  {
    forall p: PId, h: Holder ensures Holds(s2, p, h) <==> Holds(s, p, h) { }
  }

  lemma ParkMach(x: Mach, y: Mach)
    requires MachOk(x) && x.pc.Park? && y == x.(pc := Parked)
    ensures TaskOf(x) == TaskOf(y) && Unit(x) == Unit(y) && MachOk(y) && !MustBeEmpty(y) && !x.spinning
  {
  }

  lemma ParkParked(s: World, s2: World, m: MId)
    requires ParkedOk(s) && m in s.ms && s.ms[m].pc.Park? && s2.ms == s.ms[m := s.ms[m].(pc := Parked)]
    requires s2.midle == [m] + s.midle
    ensures ParkedOk(s2)
  {
    assert m !in s.midle;
    NoDupConcat([m], s.midle);
    assert forall i :: i in s2.midle <==> i == m || i in s.midle;
    hide NoDup;
  }

  /** m_stop puts the M on the idle list of Ms. */
  lemma ParkKept(s: World, m: MId)
    requires Inv(s) && m in s.ms && s.ms[m].pc.Park?
    ensures Inv(s.(midle := [m] + s.midle, ms := s.ms[m := s.ms[m].(pc := Parked)]))
  {
    hide TaskOf, ParkedOk, MachOk, MustBeEmpty, Unit, Tokens, Procs, Tasks;
    var y := s.ms[m].(pc := Parked);
    var s2 := s.(midle := [m] + s.midle, ms := s.ms[m := y]);
    ParkMach(s.ms[m], y);
    ParkProcs(s, s2, m);
    ParkParked(s, s2, m);
    StayTasks(s, s2);
    PassMachs(s, s2);
    TokensOne(s.ms, m, y);
  }
}

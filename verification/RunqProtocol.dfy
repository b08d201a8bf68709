/**
 The lock-free run queue of one processor (src/rt/sched.c p_runqempty, p_runqput, p_runqget,
 p_runqgrab, p_runqsteal) as an interleaving of its owner, any number of thieves and any number of
 emptiness tests. One step is one atomic load, one slot access, one store or one compare-and-swap;
 memory is sequentially consistent. The `Ring` and everything the step functions compute with are the
 32-bit values the source computes with; the `Ledger` is bookkeeping on the side, with counters that
 never wrap, that no step reads.
 */
module RunqProtocol {
  import opened Base

  /** Where the owner is inside p_runqput, p_runqget or p_runqsteal. */
  datatype Owner =
    | Idle
    | PutNextLoad(t: Task)
    | PutNextCas(t: Task, seen: Option<Task>)
    | PutLoad(t: Task)
    | PutTest(t: Task, h: u32)
    | PutStore(t: Task, tail: u32)
    | PutPublish(t: Task, tail: u32)
    | GetNextLoad
    | GetNextCas(held: Task)
    | GetLoad
    | GetTest(h: u32)
    | GetRead(h: u32)
    | GetCas(h: u32, t: Task)
    | Empty                                            // p_runqget has returned NULL
    | Fill(tail: u32, batch: seq<Task>)                // grabbing from another ring into this one
    | FillLoad(tail: u32, batch: seq<Task>)            // that grab committed
    | FillPublish(tail: u32, batch: seq<Task>, h: u32)

  /** Where a thief is inside p_runqgrab. */
  datatype Thief =
    | Off
    | LoadHead(stealNext: bool)
    | LoadTail(stealNext: bool, h: u32)
    | Copy(stealNext: bool, h: u32, n: nat, batch: seq<Task>)
    | LoadNext
    | CasNext(held: Task)

  /** Where a caller of p_runqempty is. */
  datatype Asker =
    | AskHead
    | AskTail(h: u32)
    | AskNext(h: u32, t: u32)
    | AskAgain(h: u32, t: u32, next: Option<Task>)
    | Answered(empty: bool)

  type Slots = s: seq<Task> | |s| == 256 witness seq(256, _ => 0)

  datatype Ring = Ring(
    head: u32, tail: u32, slots: Slots, next: Option<Task>,
    owner: Owner, thieves: map<nat, Thief>, askers: map<nat, Asker>,
    overflow: bool)                                    // the panic of p_runqsteal

  /** What a step did, as far as the ledger cares. */
  datatype Event =
    | Quiet
    | OwnerLoadsHead
    | ThiefLoadsHead(id: nat)
    | ThiefLoadsTail(id: nat)
    | AskerLoadsHead(id: nat)
    | AskerLoadsTail(id: nat)
    | AskerLoadsNext(id: nat)
    | AskerLoadsAgain(id: nat)
    | Submit(t: Task)                                  // p_runqput is called with t
    | Receive(ts: seq<Task>)                           // a grab from another ring handed over ts
    | Publish(ts: seq<Task>)                           // the tail moved past ts
    | TakeRing(ts: seq<Task>)                          // the head moved past ts
    | TakeNext(t: Task)                                // runnext went from t to NULL

  datatype Action =
    | CallPut(t: Task, next: bool)
    | CallGet
    | CallSteal
    | FillSlot(t: Task)                                // one slot copied from the other ring
    | FillRetry                                        // the CAS on the other ring failed
    | FillDone                                         // the CAS on the other ring succeeded
    | OwnerStep
    | ThiefCall(id: nat, stealNext: bool)
    | ThiefStep(id: nat)
    | AskCall(id: nat)
    | AskStep(id: nat)

  function Slot(r: Ring, i: u32): (t: Task)
  {
    r.slots[i % 256]
  }

  function OwnerNext(r: Ring): (Ring, Event)
  {
    match r.owner
    case Idle => (r, Quiet)
    case PutNextLoad(t) => (r.(owner := PutNextCas(t, r.next)), Quiet)
    case PutNextCas(t, seen) =>
      if r.next != seen then
        (r.(owner := PutNextCas(t, r.next)), Quiet)
      else
        (r.(next := Some(t), owner := if seen.None? then Idle else PutLoad(seen.value)), Quiet)
    case PutLoad(t) => (r.(owner := PutTest(t, r.head)), OwnerLoadsHead)
    case PutTest(t, h) =>
      if Sub32(r.tail, h) < 256 then
        (r.(owner := PutStore(t, r.tail)), Quiet)
      else
        (r.(owner := PutLoad(t)), Quiet)               // p_runqputslow is a stub: try again
    case PutStore(t, tail) =>
      (r.(slots := r.slots[tail % 256 := t], owner := PutPublish(t, tail)), Quiet)
    case PutPublish(t, tail) => (r.(tail := Add32(tail, 1), owner := Idle), Publish([t]))
    case GetNextLoad =>
      (r.(owner := if r.next.None? then GetLoad else GetNextCas(r.next.value)), Quiet)
    case GetNextCas(held) =>
      if r.next == Some(held) then (r.(next := None, owner := Idle), TakeNext(held))
      else (r.(owner := GetNextLoad), Quiet)
    case GetLoad => (r.(owner := GetTest(r.head)), OwnerLoadsHead)
    case GetTest(h) => (r.(owner := if r.tail == h then Empty else GetRead(h)), Quiet)
    case GetRead(h) => (r.(owner := GetCas(h, Slot(r, h))), Quiet)
    case GetCas(h, t) =>
      if r.head == h then (r.(head := Add32(h, 1), owner := Idle), TakeRing([t]))
      else (r.(owner := GetLoad), Quiet)
    case Empty => (r.(owner := Idle), Quiet)
    case Fill(_, _) => (r, Quiet)
    case FillLoad(tail, batch) => (r.(owner := FillPublish(tail, batch, r.head)), Quiet)
    case FillPublish(tail, batch, h) =>
      var n := |batch| - 1;
      if n < 0 || Add32(Sub32(tail, h), n) >= 256 then (r.(overflow := true), Quiet)
      else (r.(tail := Add32(tail, n), owner := Idle), Publish(batch[..n]))
  }

  function ThiefNext(r: Ring, id: nat): (Ring, Event)
    requires id in r.thieves
  {
    match r.thieves[id]
    case Off => (r, Quiet)
    case LoadHead(sn) => (r.(thieves := r.thieves[id := LoadTail(sn, r.head)]), ThiefLoadsHead(id))
    case LoadTail(sn, h) =>
      var d := Sub32(r.tail, h);
      var n := d - d / 2;
      var next :=
        if n == 0 then (if sn then LoadNext else Off)
        else if n > 128 then LoadHead(sn)    // inconsistent head and tail
        else Copy(sn, h, n, []);
      (r.(thieves := r.thieves[id := next]), ThiefLoadsTail(id))
    case Copy(sn, h, n, batch) =>
      if |batch| < n then
        var t := Slot(r, Add32(h, |batch|));
        (r.(thieves := r.thieves[id := Copy(sn, h, n, batch + [t])]), Quiet)
      else if r.head == h then
        (r.(head := Add32(h, n), thieves := r.thieves[id := Off]), TakeRing(batch))
      else
        (r.(thieves := r.thieves[id := LoadHead(sn)]), Quiet)
    case LoadNext =>
      (r.(thieves := r.thieves[id := if r.next.None? then Off else CasNext(r.next.value)]), Quiet)
    case CasNext(held) =>
      if r.next == Some(held) then
        (r.(next := None, thieves := r.thieves[id := Off]), TakeNext(held))
      else
        (r.(thieves := r.thieves[id := LoadHead(true)]), Quiet)
  }

  function AskNextStep(r: Ring, id: nat): (Ring, Event)
    requires id in r.askers
  {
    match r.askers[id]
    case AskHead => (r.(askers := r.askers[id := AskTail(r.head)]), AskerLoadsHead(id))
    case AskTail(h) => (r.(askers := r.askers[id := AskNext(h, r.tail)]), AskerLoadsTail(id))
    case AskNext(h, t) => (r.(askers := r.askers[id := AskAgain(h, t, r.next)]), AskerLoadsNext(id))
    case AskAgain(h, t, next) =>
      var now := if t == r.tail then Answered(h == t && next.None?) else AskHead;
      (r.(askers := r.askers[id := now]), AskerLoadsAgain(id))
    case Answered(_) => (r, Quiet)
  }

  /** One step. An action that is not possible where its agent stands changes nothing. */
  function Step(r: Ring, a: Action): (Ring, Event)
  {
    match a
    case CallPut(t, next) =>
      if r.owner.Idle? || r.owner.Empty? then
        (r.(owner := if next then PutNextLoad(t) else PutLoad(t)), Submit(t))
      else (r, Quiet)
    case CallGet =>
      if r.owner.Idle? || r.owner.Empty? then (r.(owner := GetNextLoad), Quiet) else (r, Quiet)
    case CallSteal =>
      if r.owner.Empty? then (r.(owner := Fill(r.tail, [])), Quiet) else (r, Quiet)
    case FillSlot(t) =>
      if r.owner.Fill? && |r.owner.batch| < 128 then
        var i := Add32(r.owner.tail, |r.owner.batch|);
        (r.(slots := r.slots[i % 256 := t], owner := Fill(r.owner.tail, r.owner.batch + [t])), Quiet)
      else (r, Quiet)
    case FillRetry =>
      if r.owner.Fill? then (r.(owner := Fill(r.owner.tail, [])), Quiet) else (r, Quiet)
    case FillDone =>
      if r.owner.Fill? && |r.owner.batch| > 0 then
        var b := r.owner.batch;
        (r.(owner := if |b| == 1 then Idle else FillLoad(r.owner.tail, b)), Receive(b))
      else (r, Quiet)
    case OwnerStep => OwnerNext(r)
    case ThiefCall(id, stealNext) =>
      if id !in r.thieves || r.thieves[id].Off? then
        (r.(thieves := r.thieves[id := LoadHead(stealNext)]), Quiet)
      else (r, Quiet)
    case ThiefStep(id) => if id in r.thieves then ThiefNext(r, id) else (r, Quiet)
    case AskCall(id) =>
      if id !in r.askers || r.askers[id].Answered? then
        (r.(askers := r.askers[id := AskHead]), Quiet)
      else (r, Quiet)
    case AskStep(id) => if id in r.askers then AskNextStep(r, id) else (r, Quiet)
  }

  // ---------------------------------------------------------------------------------------------
  // The ledger

  datatype Ledger = Ledger(
    head: nat,                     // how many tasks have left the ring
    put: seq<Task>,                // every task published in the ring, in order
    batches: seq<seq<Task>>,       // what each successful CAS on the head took, in order
    offered: seq<Task>,            // everything handed to this ring
    gone: seq<Task>,               // everything taken from it, or run directly by the owner
    ownerHead: nat,                // the unwrapped head that the owner, each thief, each asker loaded
    thiefHead: map<nat, nat>,
    thiefTail: map<nat, nat>,      // and the unwrapped tail each thief loaded
    askHead: map<nat, nat>,
    askTail: map<nat, nat>,
    askNow: map<nat, nat>,         // and the unwrapped tail the asker loaded last
    askSaw: map<nat, bool>)        // ring and runnext both empty when the asker loaded runnext

  function Note(r: Ring, g: Ledger, e: Event): Ledger {
    match e
    case Quiet => g
    case OwnerLoadsHead => g.(ownerHead := g.head)
    case ThiefLoadsHead(id) => g.(thiefHead := g.thiefHead[id := g.head])
    case ThiefLoadsTail(id) => g.(thiefTail := g.thiefTail[id := |g.put|])
    case AskerLoadsHead(id) => g.(askHead := g.askHead[id := g.head])
    case AskerLoadsTail(id) => g.(askTail := g.askTail[id := |g.put|])
    case AskerLoadsAgain(id) => g.(askNow := g.askNow[id := |g.put|])
    case AskerLoadsNext(id) => g.(askSaw := g.askSaw[id := g.head == |g.put| && r.next.None?])
    case Submit(t) => g.(offered := g.offered + [t])
    case Receive(ts) =>
      if |ts| == 0 then g
      else g.(offered := g.offered + ts, gone := g.gone + [ts[|ts| - 1]])
    case Publish(ts) => g.(put := g.put + ts)
    case TakeRing(ts) =>
      g.(head := g.head + |ts|, batches := g.batches + [ts], gone := g.gone + ts)
    case TakeNext(t) => g.(gone := g.gone + [t])
  }

  // ---------------------------------------------------------------------------------------------
  // The invariant

  ghost predicate CountersOk(r: Ring, g: Ledger) {
    && g.head <= |g.put| <= g.head + 256
    && r.head == g.head % 0x1_0000_0000
    && r.tail == |g.put| % 0x1_0000_0000
  }

  /** Every live position holds the task that was put there. */
  ghost predicate SlotsOk(slots: Slots, head: nat, put: seq<Task>) {
    forall k: nat :: head <= k < |put| ==> slots[k % 256] == put[k]
  }

  /** What the owner knows of the head it loaded. */
  ghost predicate Loaded(h: u32, loaded: nat, head: nat, put: seq<Task>) {
    h == loaded % 0x1_0000_0000 && loaded <= head <= |put| <= loaded + 256
  }

  ghost predicate FillOk(r: Ring, g: Ledger, tail: u32, batch: seq<Task>) {
    && g.head == |g.put|
    && tail == |g.put| % 0x1_0000_0000
    && |batch| <= 128
    && forall i: nat :: i < |batch| ==> r.slots[(|g.put| + i) % 256] == batch[i]
  }

  ghost predicate OwnerOk(r: Ring, g: Ledger) {
    match r.owner
    case PutTest(_, h) => Loaded(h, g.ownerHead, g.head, g.put)
    case PutStore(_, tail) => tail == |g.put| % 0x1_0000_0000 && |g.put| < g.head + 256
    case PutPublish(t, tail) =>
      && tail == |g.put| % 0x1_0000_0000 && |g.put| < g.head + 256
      && r.slots[|g.put| % 256] == t
    case GetTest(h) => Loaded(h, g.ownerHead, g.head, g.put)
    case GetRead(h) => Loaded(h, g.ownerHead, g.head, g.put) && g.ownerHead < |g.put|
    case GetCas(h, t) =>
      && Loaded(h, g.ownerHead, g.head, g.put) && g.ownerHead < |g.put|
      && (g.ownerHead == g.head ==> t == g.put[g.head])
    case Empty => g.head == |g.put|
    case Fill(tail, batch) => FillOk(r, g, tail, batch)
    case FillLoad(tail, batch) => FillOk(r, g, tail, batch) && |batch| >= 2
    case FillPublish(tail, batch, h) => FillOk(r, g, tail, batch) && |batch| >= 2 && h == tail
    case _ => true
  }

  function Seen(g: Ledger, id: nat): nat {
    if id in g.thiefTail then g.thiefTail[id] else 0
  }

  /**
   As long as the head it loaded is still the head, a thief is taking its share of the ring between that
   head and the tail it has seen, and its copy is right.
   */
  ghost predicate ThiefOk(th: Thief, loaded: nat, seen: nat, head: nat, put: seq<Task>) {
    match th
    case LoadTail(_, h) => h == loaded % 0x1_0000_0000 && loaded <= head
    case Copy(_, h, n, batch) =>
      && h == loaded % 0x1_0000_0000 && loaded <= head
      && |batch| <= n && 1 <= n <= 128
      && (loaded == head ==>
            loaded <= seen <= |put| && n == Share(seen - loaded) && batch == put[head..head + |batch|])
    case _ => true
  }

  ghost predicate AskerOk(a: Asker, id: nat, g: Ledger) {
    match a
    case AskHead => true
    case AskTail(h) => id in g.askHead && h == g.askHead[id] % 0x1_0000_0000 && g.askHead[id] <= g.head
    case AskNext(h, t) =>
      && id in g.askHead && h == g.askHead[id] % 0x1_0000_0000 && g.askHead[id] <= g.head
      && id in g.askTail && t == g.askTail[id] % 0x1_0000_0000 && g.askHead[id] <= g.askTail[id] <= |g.put|
    case AskAgain(h, t, next) =>
      && id in g.askHead && h == g.askHead[id] % 0x1_0000_0000 && g.askHead[id] <= g.head
      && id in g.askTail && t == g.askTail[id] % 0x1_0000_0000 && g.askHead[id] <= g.askTail[id] <= |g.put|
      && id in g.askSaw
      && (g.askHead[id] == g.askTail[id] == |g.put| && next.None? ==> g.askSaw[id])
    case Answered(empty) =>
      && id in g.askHead && id in g.askTail && id in g.askNow && id in g.askSaw
      && g.askHead[id] <= g.askTail[id] <= g.askNow[id]
      && (empty ==>
            && g.askHead[id] % 0x1_0000_0000 == g.askTail[id] % 0x1_0000_0000 == g.askNow[id] % 0x1_0000_0000
            && (g.askHead[id] == g.askTail[id] == g.askNow[id] ==> g.askSaw[id]))
  }

  function Held(next: Option<Task>): seq<Task> {
    if next.None? then [] else [next.value]
  }

  /** How many times t occurs in s. */
  function Count(s: seq<Task>, t: Task): nat {
    if s == [] then 0 else Count(s[..|s| - 1], t) + if s[|s| - 1] == t then 1 else 0
  }

  /** Tasks the owner has been given and not yet published. */
  function Hand(o: Owner): seq<Task> {
    match o
    case PutNextLoad(t) => [t]
    case PutNextCas(t, _) => [t]
    case PutLoad(t) => [t]
    case PutTest(t, _) => [t]
    case PutStore(t, _) => [t]
    case PutPublish(t, _) => [t]
    case FillLoad(_, b) => if |b| == 0 then [] else b[..|b| - 1]
    case FillPublish(_, b, _) => if |b| == 0 then [] else b[..|b| - 1]
    case _ => []
  }

  /** Nothing is lost and nothing is duplicated: `hand` is what the owner holds unpublished. */
  ghost predicate Conserved(g: Ledger, next: Option<Task>, hand: seq<Task>) {
    && g.head <= |g.put|
    && forall t :: Count(g.offered, t)
         == Count(g.gone, t) + Count(g.put[g.head..], t) + Count(Held(next), t) + Count(hand, t)
  }

  /** The ring itself: counters, live slots, what has left it, and the count of every task. */
  ghost predicate RingOk(r: Ring, g: Ledger) {
    && CountersOk(r, g)
    && SlotsOk(r.slots, g.head, g.put)
    && Concat(g.batches) == g.put[..g.head]
    && Conserved(g, r.next, Hand(r.owner))
  }

  ghost predicate ThievesOk(r: Ring, g: Ledger) {
    && (forall id :: id in r.thieves ==> id in g.thiefHead || r.thieves[id].LoadHead? || r.thieves[id].Off?)
    && (forall id :: id in r.thieves && id in g.thiefHead ==>
          ThiefOk(r.thieves[id], g.thiefHead[id], Seen(g, id), g.head, g.put))
  }

  ghost predicate AskersOk(r: Ring, g: Ledger) {
    forall id :: id in r.askers ==> AskerOk(r.askers[id], id, g)
  }

  ghost predicate Inv(r: Ring, g: Ledger) {
    RingOk(r, g) && OwnerOk(r, g) && ThievesOk(r, g) && AskersOk(r, g) && !r.overflow
  }
}

/**
 What the steps of module RunqProtocol do to the queue as a whole: every one of them either leaves it
 alone or is one of the queue operations that module Scheduler takes as single steps.
 */
module RunqRefines {
  import opened Base
  import opened RunqProtocol
  import opened RunqSafety

  /** The tasks in the ring, in order, and runnext. */
  datatype Queue = Queue(ring: seq<Task>, next: Option<Task>)

  function View(r: Ring, g: Ledger): Queue
    requires g.head <= |g.put|
  {
    Queue(g.put[g.head..], r.next)
  }

  datatype Op =
    | Same
    | Append(ts: seq<Task>)      // to the end of the ring
    | TakeFirst(n: nat)          // off the front of the ring
    | SetNext(t: Task)           // runnext replaced
    | ClearNext                  // runnext taken

  function Apply(q: Queue, op: Op): Queue
    requires op.TakeFirst? ==> op.n <= |q.ring|
  {
    match op
    case Same => q
    case Append(ts) => q.(ring := q.ring + ts)
    case TakeFirst(n) => q.(ring := q.ring[n..])
    case SetNext(t) => q.(next := Some(t))
    case ClearNext => q.(next := None)
  }

  /** The operation a step of the protocol completes. */
  function OpOf(r: Ring, a: Action): Op {
    match Step(r, a).1
    case Publish(ts) => Append(ts)
    case TakeRing(ts) => TakeFirst(|ts|)
    case TakeNext(_) => ClearNext
    case _ =>
      if a.OwnerStep? && r.owner.PutNextCas? && r.next == r.owner.seen then SetNext(r.owner.t) else Same
  }

  /** When an operation is possible: takes by the owner, by a thief, and puts. */
  predicate Possible(q: Queue, op: Op, byThief: bool) {
    match op
    case Same => true
    case Append(ts) => |q.ring| + |ts| <= 256
    case TakeFirst(n) => if byThief then 1 <= n <= Share(|q.ring|) else n == 1 && q.ring != []
    case SetNext(_) => true
    case ClearNext => q.next.Some?
  }

  /** The ring of the queue after an event, from the ledger. */
  lemma RingAfter(r: Ring, g: Ledger, e: Event)
    requires g.head <= |g.put| && (e.TakeRing? ==> g.head + |e.ts| <= |g.put|)
    ensures var g2, q := Note(r, g, e), g.put[g.head..];
      && g2.head <= |g2.put|
      && g2.put[g2.head..] == (match e case Publish(ts) => q + ts case TakeRing(ts) => q[|ts|..] case _ => q)
  {
    if e.Publish? { assert (g.put + e.ts)[g.head..] == g.put[g.head..] + e.ts; }
  }

  /** runnext after a step. */
  lemma NextAfter(r: Ring, a: Action)
    ensures var (r2, e) := Step(r, a);
      r2.next == (match OpOf(r, a) case SetNext(t) => Some(t) case ClearNext => None case _ => r.next)
    ensures Step(r, a).1.TakeNext? ==> r.next == Some(Step(r, a).1.t)
  {
    hide Slot, Add32, Sub32;
    if a.OwnerStep? {
      OwnerNextAfter(r);
    } else if a.ThiefStep? && a.id in r.thieves {
      ThiefNextAfter(r, a.id);
    }
    hide OwnerNext, ThiefNext, AskNextStep;
  }

  lemma OwnerNextAfter(r: Ring)
    ensures var (r2, e) := OwnerNext(r);
      r2.next == if e.TakeNext? then None
                 else if r.owner.PutNextCas? && r.next == r.owner.seen then Some(r.owner.t) else r.next
    ensures OwnerNext(r).1.TakeNext? ==> r.next == Some(OwnerNext(r).1.t)
    ensures OwnerNext(r).1.TakeRing? || OwnerNext(r).1.Publish? ==> !r.owner.PutNextCas?
  {
    hide Slot, Add32, Sub32;
  }

  lemma ThiefNextAfter(r: Ring, id: nat)
    requires id in r.thieves
    ensures var (r2, e) := ThiefNext(r, id); r2.next == if e.TakeNext? then None else r.next
    ensures ThiefNext(r, id).1.TakeNext? ==> r.next == Some(ThiefNext(r, id).1.t)
  {
    hide Slot, Add32, Sub32;
  }

  /** What the owner puts fits, and what it gets is the front. */
  lemma OwnerMoves(r: Ring, g: Ledger)
    requires RingOk(r, g) && OwnerOk(r, g)
    ensures OwnerNext(r).1.Publish? ==> |g.put| + |OwnerNext(r).1.ts| <= g.head + 256
    ensures OwnerNext(r).1.TakeRing? ==> g.head < |g.put| && OwnerNext(r).1.ts == [g.put[g.head]]
  {
    hide Slot, Conserved, SlotsOk;
    if r.owner.GetCas? { WrappedEqual(g.head, g.ownerHead); }
  }

  /** What event e of a step may do to the ring: `share` is what a thief about to commit has to take. */
  predicate Moves(g: Ledger, e: Event, a: Action, share: nat) {
    g.head <= |g.put| &&
    match e
    case Publish(ts) => a.OwnerStep? && |g.put| + |ts| <= g.head + 256
    case TakeRing(ts) =>
      && g.head + |ts| <= |g.put| && ts == g.put[g.head..g.head + |ts|]
      && if a.ThiefStep? then 1 <= |ts| == share <= Share(|g.put| - g.head) else |ts| == 1
    case _ => true
  }

  /** The share of the thief whose step a is: of the ring between the head and the tail it has seen. */
  function ShareOf(g: Ledger, a: Action): nat {
    if a.ThiefStep? && g.head <= Seen(g, a.id) then Share(Seen(g, a.id) - g.head) else 0
  }

  lemma ShareGrows(m: nat, n: nat)
    requires m <= n
    ensures Share(m) <= Share(n)
  {
  }

  /** What a thief takes is its share of the front. */
  lemma ThiefMoves(r: Ring, g: Ledger, id: nat)
    requires Inv(r, g) && id in r.thieves && Window(r, g, ThiefStep(id)) && ThiefNext(r, id).1.TakeRing?
    ensures Moves(g, ThiefNext(r, id).1, ThiefStep(id), ShareOf(g, ThiefStep(id)))
  {
    assert r.thieves[id].Copy? && |r.thieves[id].batch| >= r.thieves[id].n;
    CommitTakesFront(r, g, id);
    hide Inv, Share, ThiefNext, Window;
    ShareGrows(Seen(g, id) - g.head, |g.put| - g.head);
    ShareSome(Seen(g, id) - g.head);
  }

  lemma ShareSome(n: nat)
    requires n > 0
    ensures Share(n) >= 1
  {
  }

  lemma StepMoves(r: Ring, g: Ledger, a: Action)
    requires Inv(r, g) && Window(r, g, a)
    ensures Moves(g, Step(r, a).1, a, ShareOf(g, a))
  {
    assert g.head <= |g.put|;
    if a.OwnerStep? { OwnerMoves(r, g); }
    if a.ThiefStep? && a.id in r.thieves && ThiefNext(r, a.id).1.TakeRing? { ThiefMoves(r, g, a.id); }
    hide OwnerOk, ThievesOk, AskersOk, OwnerNext, SlotsOk, Conserved, ShareOf, Share;
    if a.ThiefStep? && a.id in r.thieves { ThiefNeverPuts(r, a.id); }
    if a.AskStep? && a.id in r.askers { AskerNeverMoves(r, a.id); }
    hide ThiefNext, AskNextStep, Add32;
  }

  lemma ThiefNeverPuts(r: Ring, id: nat)
    requires id in r.thieves
    ensures !ThiefNext(r, id).1.Publish?
  {
  }

  lemma AskerNeverMoves(r: Ring, id: nat)
    requires id in r.askers
    ensures !AskNextStep(r, id).1.Publish? && !AskNextStep(r, id).1.TakeRing? && !AskNextStep(r, id).1.TakeNext?
  {
  }

  /** The step a with event e from (r, g) to (r2, g2) is operation op on the queue. */
  ghost predicate Refined(r: Ring, g: Ledger, r2: Ring, g2: Ledger, e: Event, op: Op, a: Action) {
    && g.head <= |g.put| && g2.head <= |g2.put|
    && Possible(View(r, g), op, a.ThiefStep?) && View(r2, g2) == Apply(View(r, g), op)
    && (e.TakeRing? ==> op == TakeFirst(|e.ts|) && e.ts == View(r, g).ring[..op.n])
    && (e.TakeRing? && a.ThiefStep? ==> op.n == ShareOf(g, a))
    && (e.TakeNext? ==> View(r, g).next == Some(e.t))
  }

  /**
   Every step of every agent is one queue operation, or none, on the tasks in the ring and runnext: the
   owner appends within 256, takes the first or sets runnext, a thief takes from the front its share of
   what was there when it loaded the tail, or runnext; and what is taken is what comes off the queue.
   */
  lemma StepRefines(r: Ring, g: Ledger, a: Action)
    requires Inv(r, g) && Window(r, g, a)
    ensures Refined(r, g, Step(r, a).0, Note(r, g, Step(r, a).1), Step(r, a).1, OpOf(r, a), a)
  {
    hide Inv, Step, Window, Note, ShareOf, Share;
    StepMoves(r, g, a);
    NextAfter(r, a);
    RingAfter(r, g, Step(r, a).1);
  }

  /** The owner finds its queue empty only when the ring is. */
  lemma EmptyRefines(r: Ring, g: Ledger)
    requires Inv(r, g) && OwnerNext(r).0.owner.Empty?
    ensures g.head <= |g.put| && View(r, g).ring == []
  {
    hide Conserved, SlotsOk, Slot;
    if r.owner.GetTest? { WrappedEqual(|g.put|, g.ownerHead); }
  }
}

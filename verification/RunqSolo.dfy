/**
 What the operations of module RunqProtocol do when nobody interferes: step by step they come to what
 p_runqput, p_runqget and p_runqgrab do to the queue as a whole.
 */
module RunqSolo {
  import opened Base
  import opened RunqProtocol
  import opened RunqSafety
  import opened RunqRuns
  import opened RunqRefines

  /** One more step of a schedule. */
  lemma Do(r: Ring, g: Ledger, s: seq<Action>, r1: Ring, g1: Ledger, a: Action)
      returns (s2: seq<Action>, r2: Ring, g2: Ledger)
    requires Run(r, g, s) == (r1, g1) && Inv(r1, g1) && Window(r1, g1, a)
    ensures Run(r, g, s2) == (r2, g2) && s2 == s + [a] && Inv(r2, g2)
    ensures r2 == Step(r1, a).0 && g2 == Note(r1, g1, Step(r1, a).1)
  {
    hide Run, Inv, Timely;
    StepKeeps(r1, g1, a);
    r2 := Step(r1, a).0;
    s2, g2 := Then(r, g, s, r1, g1, a, r2, Step(r1, a).1);
  }

  /** Only thief id acts. */
  predicate ByThief(s: seq<Action>, id: nat) {
    forall a :: a in s ==> (a.ThiefCall? || a.ThiefStep?) && a.id == id
  }

  predicate ByOwner(s: seq<Action>) {
    forall a :: a in s ==> a.CallPut? || a.CallGet? || a.OwnerStep?
  }

  /** Only the agent id has changed its place: ring, runnext and what has been put and taken are the same. */
  predicate Alone(r: Ring, g: Ledger, r2: Ring, g2: Ledger, id: nat) {
    && id in r2.thieves && r2.owner == r.owner && r2.next == r.next && r2.head == r.head
    && g2.head == g.head && g2.put == g.put && g2.batches == g.batches && g2.gone == g.gone
  }

  lemma Called(r: Ring, g: Ledger, id: nat, sn: bool)
    requires id !in r.thieves || r.thieves[id].Off?
    ensures var (r2, e) := Step(r, ThiefCall(id, sn));
      Alone(r, g, r2, Note(r, g, e), id) && r2.thieves[id] == LoadHead(sn)
  {
  }

  lemma HeadLoaded(r: Ring, g: Ledger, id: nat)
    requires id in r.thieves && r.thieves[id].LoadHead?
    ensures var (r2, e) := Step(r, ThiefStep(id)); var g2 := Note(r, g, e);
      && Alone(r, g, r2, g2, id) && id in g2.thiefHead && g2.thiefHead[id] == g.head
      && r2.thieves[id] == LoadTail(r.thieves[id].stealNext, r.head)
  {
  }

  lemma TailLoaded(r: Ring, g: Ledger, id: nat)
    requires Inv(r, g) && id in r.thieves && r.thieves[id].LoadTail?
    requires id in g.thiefHead && g.thiefHead[id] == g.head
    ensures g.head <= |g.put|
    ensures var (r2, e) := Step(r, ThiefStep(id)); var g2 := Note(r, g, e);
      && Alone(r, g, r2, g2, id) && g2.thiefHead == g.thiefHead && Seen(g2, id) == |g.put|
      && r2.thieves[id] == Decided(r.thieves[id], |g.put| - g.head)
  {
    GrabDecides(r, g, id);
    hide Inv;
  }

  /** What a thief that has loaded the head goes on with when it finds n tasks. */
  function Decided(th: Thief, n: nat): Thief
    requires th.LoadTail?
  {
    if n > 0 then Copy(th.stealNext, th.h, Share(n), []) else if th.stealNext then LoadNext else Off
  }

  lemma Copied(r: Ring, g: Ledger, id: nat)
    requires id in r.thieves && r.thieves[id].Copy? && |r.thieves[id].batch| < r.thieves[id].n
    ensures var (r2, e) := Step(r, ThiefStep(id));
      && Alone(r, g, r2, g, id) && e == Quiet
      && r2.thieves[id] == r.thieves[id].(batch := r2.thieves[id].batch)
      && |r2.thieves[id].batch| == |r.thieves[id].batch| + 1
  {
  }

  /** The thief goes on copying until its batch is complete. */
  lemma {:induction false} CopyAll(r: Ring, g: Ledger, s: seq<Action>, r1: Ring, g1: Ledger, id: nat)
      returns (s2: seq<Action>, r2: Ring)
    requires Run(r, g, s) == (r1, g1) && Inv(r1, g1) && ByThief(s, id)
    requires id in r1.thieves && r1.thieves[id].Copy? && |r1.thieves[id].batch| <= r1.thieves[id].n
    ensures Run(r, g, s2) == (r2, g1) && Inv(r2, g1) && ByThief(s2, id) && Alone(r1, g1, r2, g1, id)
    ensures r2.thieves[id].Copy? && |r2.thieves[id].batch| == r2.thieves[id].n
    decreases r1.thieves[id].n - |r1.thieves[id].batch|
  {
    if |r1.thieves[id].batch| == r1.thieves[id].n {
      s2, r2 := s, r1;
    } else {
      Copied(r1, g1, id);
      assert Window(r1, g1, ThiefStep(id));
      assert Note(r1, g1, Quiet) == g1;
      hide Run, Inv, Step, Note, Window;
      var r3, g3;
      s2, r3, g3 := Do(r, g, s, r1, g1, ThiefStep(id));
      s2, r2 := CopyAll(r, g, s2, r3, g1, id);
    }
  }

  /** Thief id comes to have loaded head and tail. */
  lemma LoadBoth(r: Ring, g: Ledger, id: nat, sn: bool) returns (s: seq<Action>, r2: Ring, g2: Ledger)
    requires Inv(r, g) && (id !in r.thieves || r.thieves[id].Off?)
    ensures Run(r, g, s) == (r2, g2) && Inv(r2, g2) && ByThief(s, id) && Alone(r, g, r2, g2, id)
    ensures id in g2.thiefHead && g2.thiefHead[id] == g.head && Seen(g2, id) == |g.put| && g.head <= |g.put|
    ensures r2.thieves[id] == Decided(LoadTail(sn, r.head), |g.put| - g.head)
  {
    hide Run, Inv, Share, Step, Note, Decided, Seen;
    NoSteps(r, g);
    Called(r, g, id, sn);
    var r1, g1;
    s, r1, g1 := Do(r, g, [], r, g, ThiefCall(id, sn));
    HeadLoaded(r1, g1, id);
    var s1, r3, g3 := Do(r, g, s, r1, g1, ThiefStep(id));
    TailLoaded(r3, g3, id);
    assert r3.thieves[id] == LoadTail(sn, r1.head);
    s, r2, g2 := Do(r, g, s1, r3, g3, ThiefStep(id));
  }

  /** What a thief's swap has done: the front b of the ring is gone. */
  predicate Committed(r: Ring, g: Ledger, r2: Ring, g2: Ledger, id: nat, n: nat) {
    && g.head + n <= |g.put| && id in r2.thieves && r2.thieves[id].Off?
    && r2.owner == r.owner && r2.next == r.next && g2.put == g.put
    && var b := g.put[g.head..g.head + n];
      g2.head == g.head + n && g2.batches == g.batches + [b] && g2.gone == g.gone + b
  }

  lemma Swapped(r: Ring, g: Ledger, id: nat)
    requires Inv(r, g) && id in r.thieves && r.thieves[id].Copy? && |r.thieves[id].batch| == r.thieves[id].n
    requires id in g.thiefHead && g.thiefHead[id] == g.head
    ensures g.head <= Seen(g, id)
    ensures var (r2, e) := Step(r, ThiefStep(id)); Committed(r, g, r2, Note(r, g, e), id, Share(Seen(g, id) - g.head))
  {
    CommitTakesFront(r, g, id);
    hide Inv, Share;
  }

  /** A thief alone with tasks to copy takes its share of the ring off the front. */
  lemma CopyAndSwap(r: Ring, g: Ledger, s: seq<Action>, r1: Ring, g1: Ledger, id: nat)
      returns (s2: seq<Action>, r2: Ring, g2: Ledger)
    requires Run(r, g, s) == (r1, g1) && Inv(r1, g1) && ByThief(s, id)
    requires id in r1.thieves && r1.thieves[id].Copy? && r1.thieves[id].batch == []
    requires id in g1.thiefHead && g1.thiefHead[id] == g1.head && g1.head <= Seen(g1, id)
    ensures Run(r, g, s2) == (r2, g2) && Inv(r2, g2) && ByThief(s2, id)
    ensures Committed(r1, g1, r2, g2, id, Share(Seen(g1, id) - g1.head))
  {
    hide Run, Inv, Step, Note, Window, Share, Seen;
    var s1, r3 := CopyAll(r, g, s, r1, g1, id);
    Swapped(r3, g1, id);
    InWindow(r3, g1, id);
    s2, r2, g2 := Do(r, g, s1, r3, g1, ThiefStep(id));
    CommittedSame(r1, r3, g1, r2, g2, id, Share(Seen(g1, id) - g1.head));
  }

  lemma InWindow(r: Ring, g: Ledger, id: nat)
    requires id in g.thiefHead && g.thiefHead[id] == g.head
    ensures Window(r, g, ThiefStep(id))
  {
  }

  lemma CommittedSame(r: Ring, r3: Ring, g: Ledger, r2: Ring, g2: Ledger, id: nat, n: nat)
    requires Committed(r3, g, r2, g2, id, n) && r3.owner == r.owner && r3.next == r.next
    ensures Committed(r, g, r2, g2, id, n)
  {
  }

  lemma NextLoaded(r: Ring, g: Ledger, id: nat)
    requires id in r.thieves && r.thieves[id].LoadNext?
    ensures var (r2, e) := Step(r, ThiefStep(id));
      && Alone(r, g, r2, Note(r, g, e), id)
      && r2.thieves[id] == if r.next.None? then Off else CasNext(r.next.value)
  {
  }

  /** What a thief has done that found the ring empty and was to take runnext. */
  predicate TookNext(r: Ring, g: Ledger, r2: Ring, g2: Ledger, id: nat) {
    && id in r2.thieves && r2.thieves[id].Off? && r2.owner == r.owner && r2.next.None?
    && g2.head == g.head && g2.put == g.put && g2.batches == g.batches
    && g2.gone == g.gone + Held(r.next)
  }

  lemma NextTaken(r: Ring, g: Ledger, id: nat)
    requires id in r.thieves && r.next.Some? && r.thieves[id] == CasNext(r.next.value)
    ensures TookNext(r, g, Step(r, ThiefStep(id)).0, Note(r, g, Step(r, ThiefStep(id)).1), id)
  {
  }

  lemma GrabNext(r: Ring, g: Ledger, s: seq<Action>, r1: Ring, g1: Ledger, id: nat)
      returns (s2: seq<Action>, r2: Ring, g2: Ledger)
    requires Run(r, g, s) == (r1, g1) && Inv(r1, g1) && ByThief(s, id)
    requires id in r1.thieves && r1.thieves[id].LoadNext?
    ensures Run(r, g, s2) == (r2, g2) && Inv(r2, g2) && ByThief(s2, id) && TookNext(r1, g1, r2, g2, id)
  {
    hide Run, Inv, Step, Note;
    NextLoaded(r1, g1, id);
    s2, r2, g2 := Do(r, g, s, r1, g1, ThiefStep(id));
    if r1.next.Some? {
      var r3, g3 := r2, g2;
      NextTaken(r3, g3, id);
      s2, r2, g2 := Do(r, g, s2, r3, g3, ThiefStep(id));
    }
  }

  /** What p_runqgrab does to a queue that nobody else touches, and what it takes. */
  ghost predicate Grabbed(q: Queue, q2: Queue, sn: bool, taken: seq<Task>) {
    if q.ring != [] then
      var n := Share(|q.ring|);
      n <= |q.ring| && q2 == Queue(q.ring[n..], q.next) && taken == q.ring[..n]
    else if sn then q2 == Queue([], None) && taken == Held(q.next)
    else q2 == q && taken == []
  }

  /**
   A thief alone: p_runqgrab takes half of the ring, rounded up, off its front and in its order; from an
   empty ring it takes runnext, if it may; and otherwise nothing.
   */
  lemma SoloGrab(r: Ring, g: Ledger, id: nat, sn: bool)
      returns (s: seq<Action>, r2: Ring, g2: Ledger, taken: seq<Task>)
    requires Inv(r, g) && (id !in r.thieves || r.thieves[id].Off?)
    ensures Run(r, g, s) == (r2, g2) && ByThief(s, id) && id in r2.thieves && r2.thieves[id].Off?
    ensures g.head <= |g.put| && g2.head <= |g2.put| && r2.owner == r.owner
    ensures Grabbed(View(r, g), View(r2, g2), sn, taken) && g2.gone == g.gone + taken
  {
    hide Run, Inv, Share;
    var s1, r1, g1 := LoadBoth(r, g, id, sn);
    var n := |g.put| - g.head;
    if n > 0 {
      s, r2, g2 := CopyAndSwap(r, g, s1, r1, g1, id);
      ShareFits(n);
      taken := g.put[g.head..g.head + Share(n)];
    } else if sn {
      s, r2, g2 := GrabNext(r, g, s1, r1, g1, id);
      taken := Held(r.next);
    } else {
      s, r2, g2, taken := s1, r1, g1, [];
    }
  }

  /** However many others interfere, a thief ends with tasks, or with nothing only if it saw nothing to take. */
  lemma ThiefEnds(r: Ring, id: nat)
    requires id in r.thieves && !r.thieves[id].Off? && ThiefNext(r, id).0.thieves[id].Off?
    ensures match r.thieves[id]
      case LoadTail(sn, h) => !sn && r.tail == h
      case Copy(_, _, _, batch) => ThiefNext(r, id).1 == TakeRing(batch)
      case LoadNext => r.next.None?
      case CasNext(t) => ThiefNext(r, id).1 == TakeNext(t)
      case _ => false
  {
  }

  /** Whether a thief may take runnext, as its caller has said. */
  predicate MayTakeNext(th: Thief) {
    match th
    case Off => false
    case LoadHead(sn) => sn
    case LoadTail(sn, _) => sn
    case Copy(sn, _, _, _) => sn
    case LoadNext => true
    case CasNext(_) => true
  }

  /** However often a thief has to start again, it does so with what its caller has said. */
  lemma FlagKept(r: Ring, id: nat)
    requires id in r.thieves && !ThiefNext(r, id).0.thieves[id].Off?
    ensures MayTakeNext(ThiefNext(r, id).0.thieves[id]) == MayTakeNext(r.thieves[id])
  {
  }

  /** A failed swap on the other ring leaves p_runqsteal grabbing, to copy to the same place again. */
  lemma FillAgain(r: Ring)
    requires r.owner.Fill?
    ensures Step(r, FillRetry) == (r.(owner := Fill(r.owner.tail, [])), Quiet)
  {
  }

  /** Nor does p_runqget return without a task, or the answer that there is none. */
  lemma GetEnds(r: Ring)
    requires r.owner.GetNextLoad? || r.owner.GetNextCas? || r.owner.GetLoad? || r.owner.GetTest? || r.owner.GetRead?
             || r.owner.GetCas?
    ensures OwnerNext(r).0.owner.Idle? ==> OwnerNext(r).1.TakeNext? || OwnerNext(r).1.TakeRing?
    ensures OwnerNext(r).0.owner.Empty? ==> r.owner.GetTest? && r.tail == r.owner.h
  {
  }

  // ---------------------------------------------------------------------------------------------
  // The owner

  /** The owner has come to o, and nothing else has changed. */
  predicate Came(r: Ring, g: Ledger, r2: Ring, g2: Ledger, o: Owner) {
    && r2.owner == o && r2.next == r.next && r2.head == r.head && r2.tail == r.tail
    && g2.head == g.head && g2.put == g.put && g2.gone == g.gone
  }

  /** The step from o to o2 changes nothing else. */
  ghost predicate Goes(r: Ring, g: Ledger, o2: Owner) {
    Came(r, g, Step(r, OwnerStep).0, Note(r, g, Step(r, OwnerStep).1), o2)
  }

  /** The owner's next step, when it only moves on. */
  lemma Onward(r: Ring, g: Ledger, s: seq<Action>, r1: Ring, g1: Ledger, o: Owner)
      returns (s2: seq<Action>, r2: Ring, g2: Ledger)
    requires Run(r, g, s) == (r1, g1) && Inv(r1, g1) && ByOwner(s) && Goes(r1, g1, o)
    ensures Run(r, g, s2) == (r2, g2) && Inv(r2, g2) && ByOwner(s2) && Came(r1, g1, r2, g2, o)
  {
    assert Window(r1, g1, OwnerStep);
    hide Run, Inv, Window, Step, Note, Came;
    s2, r2, g2 := Do(r, g, s, r1, g1, OwnerStep);
  }

  lemma PutSteps(r: Ring, g: Ledger)
    requires Inv(r, g) && g.head <= |g.put|
    ensures r.owner.PutLoad? ==> Goes(r, g, PutTest(r.owner.t, r.head))
    ensures r.owner.PutTest? && r.owner.h == r.head && |g.put| < g.head + 256 ==>
              Goes(r, g, PutStore(r.owner.t, r.tail))
    ensures r.owner.PutStore? ==> Goes(r, g, PutPublish(r.owner.t, r.owner.tail))
  {
    WrappedDifference(|g.put|, g.head);
    hide SlotsOk, Conserved, OwnerOk, ThievesOk, AskersOk;
  }

  lemma Published(r: Ring, g: Ledger)
    requires r.owner.PutPublish?
    ensures var (r2, e) := Step(r, OwnerStep); var g2 := Note(r, g, e);
      && r2.owner.Idle? && r2.next == r.next
      && g2.head == g.head && g2.put == g.put + [r.owner.t] && g2.gone == g.gone
  {
  }

  /** The owner alone, with a task for a ring that has room: the task goes to the end. */
  lemma PutLast(r: Ring, g: Ledger, s: seq<Action>, r1: Ring, g1: Ledger)
      returns (s2: seq<Action>, r2: Ring, g2: Ledger)
    requires Run(r, g, s) == (r1, g1) && Inv(r1, g1) && ByOwner(s)
    requires r1.owner.PutLoad? && g1.head <= |g1.put| < g1.head + 256
    ensures Run(r, g, s2) == (r2, g2) && Inv(r2, g2) && ByOwner(s2) && r2.owner.Idle? && r2.next == r1.next
    ensures g2.head == g1.head && g2.put == g1.put + [r1.owner.t] && g2.gone == g1.gone
  {
    hide Run, Inv, Step, Note, Goes;
    var t := r1.owner.t;
    PutSteps(r1, g1);
    s2, r2, g2 := Onward(r, g, s, r1, g1, PutTest(t, r1.head));
    PutSteps(r2, g2);
    s2, r2, g2 := Onward(r, g, s2, r2, g2, PutStore(t, r1.tail));
    PutSteps(r2, g2);
    s2, r2, g2 := Onward(r, g, s2, r2, g2, PutPublish(t, r1.tail));
    Published(r2, g2);
    assert Window(r2, g2, OwnerStep);
    s2, r2, g2 := Do(r, g, s2, r2, g2, OwnerStep);
  }

  lemma PutCalled(r: Ring, g: Ledger, t: Task, next: bool)
    requires r.owner.Idle? || r.owner.Empty?
    ensures var (r2, e) := Step(r, CallPut(t, next));
      Came(r, g, r2, Note(r, g, e), if next then PutNextLoad(t) else PutLoad(t))
  {
  }

  lemma NextSeen(r: Ring, g: Ledger)
    requires r.owner.PutNextLoad?
    ensures Goes(r, g, PutNextCas(r.owner.t, r.next))
  {
  }

  lemma NextSwapped(r: Ring, g: Ledger)
    requires r.owner.PutNextCas? && r.owner.seen == r.next
    ensures var (r2, e) := Step(r, OwnerStep); var g2 := Note(r, g, e);
      && r2.owner == (if r.next.None? then Idle else PutLoad(r.next.value)) && r2.next == Some(r.owner.t)
      && g2.head == g.head && g2.put == g.put && g2.gone == g.gone
  {
  }

  /**
   The owner alone: p_runqput makes t the next task to run and puts the one it replaces at the end of the
   ring, or puts t itself at the end. It needs room in the ring unless there is nothing to put there.
   */
  lemma SoloPut(r: Ring, g: Ledger, t: Task, next: bool) returns (s: seq<Action>, r2: Ring, g2: Ledger)
    requires Inv(r, g) && (r.owner.Idle? || r.owner.Empty?)
    requires |g.put| < g.head + 256 || (next && r.next.None?)
    ensures Run(r, g, s) == (r2, g2) && ByOwner(s) && r2.owner.Idle? && g.head <= |g.put| && g2.head <= |g2.put|
    ensures var q := View(r, g);
      View(r2, g2) == if next then Queue(q.ring + Held(q.next), Some(t)) else Queue(q.ring + [t], q.next)
    ensures g2.gone == g.gone
  {
    assert g.head <= |g.put|;
    hide Run, Inv, Step, Note;
    NoSteps(r, g);
    PutCalled(r, g, t, next);
    assert Window(r, g, CallPut(t, next));
    s, r2, g2 := Do(r, g, [], r, g, CallPut(t, next));
    if next {
      NextSeen(r2, g2);
      s, r2, g2 := Onward(r, g, s, r2, g2, PutNextCas(t, r.next));
      NextSwapped(r2, g2);
      assert Window(r2, g2, OwnerStep);
      s, r2, g2 := Do(r, g, s, r2, g2, OwnerStep);
    }
    if r2.owner.PutLoad? {
      assert (g.put + [r2.owner.t])[g.head..] == g.put[g.head..] + [r2.owner.t];
      s, r2, g2 := PutLast(r, g, s, r2, g2);
    }
  }

  lemma GetSteps(r: Ring, g: Ledger)
    requires Inv(r, g) && g.head <= |g.put|
    ensures r.owner.GetNextLoad? ==> Goes(r, g, if r.next.None? then GetLoad else GetNextCas(r.next.value))
    ensures r.owner.GetLoad? ==> Goes(r, g, GetTest(r.head))
    ensures r.owner.GetTest? && r.owner.h == r.head ==>
              Goes(r, g, if g.head == |g.put| then Empty else GetRead(r.head))
    ensures r.owner.GetRead? && r.owner.h == r.head && g.head < |g.put| ==>
              Goes(r, g, GetCas(r.head, g.put[g.head]))
  {
    WrappedDifference(|g.put|, g.head);
    SlotOfWrapped(g.head);
    hide Conserved, OwnerOk, ThievesOk, AskersOk;
  }

  lemma NextGot(r: Ring, g: Ledger)
    requires r.owner.GetNextCas? && r.next == Some(r.owner.held)
    ensures var (r2, e) := Step(r, OwnerStep); var g2 := Note(r, g, e);
      && r2.owner.Idle? && r2.next.None?
      && g2.head == g.head && g2.put == g.put && g2.gone == g.gone + [r.owner.held]
  {
  }

  lemma FirstGot(r: Ring, g: Ledger)
    requires r.owner.GetCas? && r.owner.h == r.head
    ensures var (r2, e) := Step(r, OwnerStep); var g2 := Note(r, g, e);
      && r2.owner.Idle? && r2.next == r.next
      && g2.head == g.head + 1 && g2.put == g.put && g2.gone == g.gone + [r.owner.t]
  {
  }

  /** The owner alone, past runnext: the first of the ring, or the answer that there is none. */
  lemma GetFirst(r: Ring, g: Ledger, s: seq<Action>, r1: Ring, g1: Ledger)
      returns (s2: seq<Action>, r2: Ring, g2: Ledger)
    requires Run(r, g, s) == (r1, g1) && Inv(r1, g1) && ByOwner(s) && r1.owner.GetLoad? && g1.head <= |g1.put|
    ensures Run(r, g, s2) == (r2, g2) && Inv(r2, g2) && ByOwner(s2) && r2.next == r1.next && g2.put == g1.put
    ensures if g1.head < |g1.put| then
              r2.owner.Idle? && g2.head == g1.head + 1 && g2.gone == g1.gone + [g1.put[g1.head]]
            else r2.owner.Empty? && g2.head == g1.head && g2.gone == g1.gone
  {
    hide Run, Inv, Step, Note, Goes;
    GetSteps(r1, g1);
    s2, r2, g2 := Onward(r, g, s, r1, g1, GetTest(r1.head));
    GetSteps(r2, g2);
    if g1.head == |g1.put| {
      s2, r2, g2 := Onward(r, g, s2, r2, g2, Empty);
    } else {
      s2, r2, g2 := Onward(r, g, s2, r2, g2, GetRead(r1.head));
      GetSteps(r2, g2);
      s2, r2, g2 := Onward(r, g, s2, r2, g2, GetCas(r1.head, g1.put[g1.head]));
      FirstGot(r2, g2);
      assert Window(r2, g2, OwnerStep);
      s2, r2, g2 := Do(r, g, s2, r2, g2, OwnerStep);
    }
  }

  lemma GetCalled(r: Ring, g: Ledger)
    requires r.owner.Idle? || r.owner.Empty?
    ensures var (r2, e) := Step(r, CallGet); Came(r, g, r2, Note(r, g, e), GetNextLoad)
  {
  }

  /** The owner alone: p_runqget returns runnext, or else the first of the ring, or NULL when both are empty. */
  lemma SoloGet(r: Ring, g: Ledger) returns (s: seq<Action>, r2: Ring, g2: Ledger)
    requires Inv(r, g) && (r.owner.Idle? || r.owner.Empty?)
    ensures Run(r, g, s) == (r2, g2) && ByOwner(s) && g.head <= |g.put| && g2.head <= |g2.put|
    ensures var q, q2 := View(r, g), View(r2, g2);
      if q.next.Some? then q2 == Queue(q.ring, None) && g2.gone == g.gone + [q.next.value] && r2.owner.Idle?
      else if q.ring != [] then q2 == Queue(q.ring[1..], None) && g2.gone == g.gone + [q.ring[0]] && r2.owner.Idle?
      else q2 == q && g2.gone == g.gone && r2.owner.Empty?
  {
    assert g.head <= |g.put|;
    hide Run, Inv, Step, Note, Goes;
    NoSteps(r, g);
    GetCalled(r, g);
    assert Window(r, g, CallGet);
    s, r2, g2 := Do(r, g, [], r, g, CallGet);
    GetSteps(r2, g2);
    if r.next.Some? {
      s, r2, g2 := Onward(r, g, s, r2, g2, GetNextCas(r.next.value));
      NextGot(r2, g2);
      assert Window(r2, g2, OwnerStep);
      s, r2, g2 := Do(r, g, s, r2, g2, OwnerStep);
    } else {
      s, r2, g2 := Onward(r, g, s, r2, g2, GetLoad);
      s, r2, g2 := GetFirst(r, g, s, r2, g2);
    }
  }
}

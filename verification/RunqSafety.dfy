/** Safety of the run-queue protocol over every interleaving. */
module RunqSafety {
  import opened Base
  import opened RunqProtocol

  /** 256 divides 2^32, so a wrapped counter still names the right slot. */
  lemma SlotOfWrapped(x: int)
    ensures (x % 0x1_0000_0000) % 256 == x % 256
  {
    var q := x / 0x1_0000_0000;
    assert x == q * 0x1_0000_0000 + x % 0x1_0000_0000;
    assert x == (q * 0x100_0000) * 256 + x % 0x1_0000_0000;
    ModPlus(x % 0x1_0000_0000, q * 0x100_0000);
  }

  lemma ModPlus(y: int, k: int)
    ensures (k * 256 + y) % 256 == y % 256
  {
    assert k * 256 + y == (k + y / 256) * 256 + y % 256;
    ModUnique(k * 256 + y, k + y / 256, y % 256);
  }

  lemma ModUnique(x: int, q: int, m: int)
    requires x == q * 256 + m && 0 <= m < 256
    ensures x % 256 == m
  {
  }

  /** The wrapped difference of two counters less than 2^32 apart is their difference. */
  lemma WrappedDifference(a: int, b: int)
    requires b <= a < b + 0x1_0000_0000
    ensures (a % 0x1_0000_0000 - b % 0x1_0000_0000) % 0x1_0000_0000 == a - b
  {
  }

  /** A counter has gone from `from` to `to` by one or more full turns of 2^32. */
  predicate Lapped(from: nat, to: nat) {
    from < to && (to - from) % 0x1_0000_0000 == 0
  }

  /** Wrapped counters are equal exactly when the counters are, or one has lapped the other. */
  lemma WrappedEqual(a: nat, b: nat)
    requires b <= a
    ensures a % 0x1_0000_0000 == b % 0x1_0000_0000 <==> a == b || Lapped(b, a)
  {
    WrappedSub(a, b);
  }

  lemma WrappedSub(a: int, b: int)
    ensures (a - b) % 0x1_0000_0000 == (a % 0x1_0000_0000 - b % 0x1_0000_0000) % 0x1_0000_0000
  {
  }

  lemma WrappedAdd(a: int, b: int)
    ensures (a % 0x1_0000_0000 + b) % 0x1_0000_0000 == (a + b) % 0x1_0000_0000
  {
  }

  /** Two positions closer than the ring size never share a slot. */
  lemma SlotsApart(a: int, b: int)
    requires a < b < a + 256
    ensures a % 256 != b % 256
  {
  }

  // ---------------------------------------------------------------------------------------------
  // What a change of the ledger leaves standing

  /** `g2` is `g` later on: the same loads, more puts, more takes. */
  ghost predicate Later(g: Ledger, g2: Ledger) {
    && g.head <= g2.head && g.put <= g2.put
    && g.thiefHead == g2.thiefHead && g.thiefTail == g2.thiefTail
    && g.askHead == g2.askHead && g.askTail == g2.askTail && g.askNow == g2.askNow
    && g.askSaw == g2.askSaw
  }

  lemma AgentsKeep(r: Ring, g: Ledger, r2: Ring, g2: Ledger)
    requires ThievesOk(r, g) && AskersOk(r, g)
    requires Later(g, g2) && r2.thieves == r.thieves && r2.askers == r.askers
    requires g2.head <= |g2.put|
    ensures ThievesOk(r2, g2) && AskersOk(r2, g2)
  {
    forall id | id in r.thieves && id in g.thiefHead
      ensures ThiefOk(r.thieves[id], g.thiefHead[id], Seen(g, id), g2.head, g2.put)
    {
      var th := r.thieves[id];
      assert ThiefOk(th, g.thiefHead[id], Seen(g, id), g.head, g.put);
      if th.Copy? && g.thiefHead[id] == g2.head {
        assert g.put[g.head..g.head + |th.batch|] == g2.put[g.head..g.head + |th.batch|];
      }
    }
    forall id | id in r.askers
      ensures AskerOk(r.askers[id], id, g2)
    {
      assert AskerOk(r.askers[id], id, g);
    }
  }

  lemma ConcatSnoc(bs: seq<seq<Task>>, b: seq<Task>)
    ensures Concat(bs + [b]) == Concat(bs) + b
  {
    assert (bs + [b])[..|bs|] == bs;
  }

  // ---------------------------------------------------------------------------------------------
  // The count of every task

  lemma CountAppend(a: seq<Task>, b: seq<Task>, t: Task)
    ensures Count(a + b, t) == Count(a, t) + Count(b, t)
  {
    if b == [] {
      assert a + b == a;
    } else {
      assert (a + b)[..|a + b| - 1] == a + b[..|b| - 1];
      CountAppend(a, b[..|b| - 1], t);
    }
  }

  lemma TakeConserves(r: Ring, g: Ledger, b: seq<Task>, next: Option<Task>, hand: seq<Task>)
    requires Conserved(g, next, hand)
    requires g.head + |b| <= |g.put| && b == g.put[g.head..g.head + |b|]
    ensures Conserved(Note(r, g, TakeRing(b)), next, hand)
  {
    var rest := g.put[g.head + |b|..];
    assert g.put[g.head..] == b + rest;
    forall t
      ensures Count(g.gone + b, t) == Count(g.gone, t) + Count(b, t)
      ensures Count(b + rest, t) == Count(b, t) + Count(rest, t)
    {
      CountAppend(g.gone, b, t);
      CountAppend(b, rest, t);
    }
  }

  lemma PublishConserves(r: Ring, g: Ledger, next: Option<Task>, hand: seq<Task>)
    requires Conserved(g, next, hand)
    ensures Conserved(Note(r, g, Publish(hand)), next, [])
  {
    assert (g.put + hand)[g.head..] == g.put[g.head..] + hand;
    forall t
      ensures Count(g.put[g.head..] + hand, t) == Count(g.put[g.head..], t) + Count(hand, t)
    {
      CountAppend(g.put[g.head..], hand, t);
    }
  }

  lemma TakeNextConserves(r: Ring, g: Ledger, t: Task, hand: seq<Task>)
    requires Conserved(g, Some(t), hand)
    ensures Conserved(Note(r, g, TakeNext(t)), None, hand)
  {
    forall u
      ensures Count(g.gone + [t], u) == Count(g.gone, u) + Count([t], u)
    {
      CountAppend(g.gone, [t], u);
    }
  }

  lemma SubmitConserves(r: Ring, g: Ledger, t: Task, next: Option<Task>)
    requires Conserved(g, next, [])
    ensures Conserved(Note(r, g, Submit(t)), next, [t])
  {
    forall u
      ensures Count(g.offered + [t], u) == Count(g.offered, u) + Count([t], u)
    {
      CountAppend(g.offered, [t], u);
    }
  }

  lemma ReceiveConserves(r: Ring, g: Ledger, b: seq<Task>, next: Option<Task>)
    requires Conserved(g, next, []) && |b| > 0
    ensures Conserved(Note(r, g, Receive(b)), next, b[..|b| - 1])
  {
    var last := b[|b| - 1];
    forall u
      ensures Count(g.offered + b, u) == Count(g.offered, u) + Count(b, u)
      ensures Count(g.gone + [last], u) == Count(g.gone, u) + Count([last], u)
    {
      CountAppend(g.offered, b, u);
      CountAppend(g.gone, [last], u);
    }
  }

  // ---------------------------------------------------------------------------------------------
  // Steps that move the counters

  /** Taking the front segment `b` keeps everything about the ring itself. */
  lemma TakeFront(r: Ring, g: Ledger, r2: Ring, b: seq<Task>)
    requires RingOk(r, g)
    requires g.head + |b| <= |g.put| && b == g.put[g.head..g.head + |b|]
    requires r2.head == Add32(r.head, |b|) && r2.tail == r.tail && r2.slots == r.slots && r2.next == r.next
    requires Hand(r2.owner) == Hand(r.owner)
    ensures RingOk(r2, Note(r, g, TakeRing(b)))
  {
    var g2 := Note(r, g, TakeRing(b));
    WrappedAdd(g.head, |b|);
    assert Concat(g2.batches) == g2.put[..g2.head] by {
      ConcatSnoc(g.batches, b);
      assert g.put[..g2.head] == g.put[..g.head] + b;
    }
    TakeConserves(r, g, b, r.next, Hand(r.owner));
  }

  /** Publishing `ts`, already stored at the tail, keeps everything about the ring itself. */
  lemma PublishBack(r: Ring, g: Ledger, r2: Ring, ts: seq<Task>)
    requires RingOk(r, g)
    requires |g.put| + |ts| <= g.head + 256
    requires forall i: nat :: i < |ts| ==> r.slots[(|g.put| + i) % 256] == ts[i]
    requires r2.tail == Add32(r.tail, |ts|) && r2.head == r.head && r2.slots == r.slots && r2.next == r.next
    requires Hand(r.owner) == ts && Hand(r2.owner) == []
    ensures RingOk(r2, Note(r, g, Publish(ts)))
  {
    var g2 := Note(r, g, Publish(ts));
    WrappedAdd(|g.put|, |ts|);
    assert g2.put[..g.head] == g.put[..g.head];
    PublishConserves(r, g, r.next, ts);
    PublishedSlots(r.slots, g.head, g.put, ts);
  }

  lemma PublishedSlots(slots: Slots, head: nat, put: seq<Task>, ts: seq<Task>)
    requires SlotsOk(slots, head, put)
    requires forall i: nat :: i < |ts| ==> slots[(|put| + i) % 256] == ts[i]
    ensures SlotsOk(slots, head, put + ts)
  {
    forall k: nat | head <= k < |put + ts|
      ensures slots[k % 256] == (put + ts)[k]
    {
      if k >= |put| {
        var i: nat := k - |put|;
        assert slots[(|put| + i) % 256] == ts[i];
      }
    }
  }

  /** Writing one slot outside the live part leaves the live part. */
  lemma WriteDead(slots: Slots, head: nat, put: seq<Task>, i: nat, t: Task)
    requires SlotsOk(slots, head, put)
    requires head <= |put| && |put| + i < head + 256
    ensures SlotsOk(slots[(|put| + i) % 256 := t], head, put)
  {
    forall k: nat | head <= k < |put|
      ensures k % 256 != (|put| + i) % 256
    {
      SlotsApart(k, |put| + i);
    }
  }

  // ---------------------------------------------------------------------------------------------
  // One step of each agent

  /** The ring and its owner are in order and the other agents have not been touched. */
  ghost predicate Kept(r: Ring, g: Ledger, r2: Ring, g2: Ledger) {
    && RingOk(r2, g2) && OwnerOk(r2, g2) && !r2.overflow
    && Later(g, g2) && r2.thieves == r.thieves && r2.askers == r.askers
  }

  lemma PutKeeps(r: Ring, g: Ledger)
    requires RingOk(r, g) && OwnerOk(r, g) && !r.overflow
    requires r.owner.PutLoad? || r.owner.PutTest?
    ensures Kept(r, g, OwnerNext(r).0, Note(r, g, OwnerNext(r).1))
  {
    if r.owner.PutTest? {
      WrappedDifference(|g.put|, g.ownerHead);
    }
  }

  lemma StoreKeeps(r: Ring, g: Ledger)
    requires RingOk(r, g) && OwnerOk(r, g) && !r.overflow
    requires r.owner.PutStore?
    ensures Kept(r, g, OwnerNext(r).0, Note(r, g, OwnerNext(r).1))
  {
    SlotOfWrapped(|g.put|);
    WriteDead(r.slots, g.head, g.put, 0, r.owner.t);
  }

  lemma PublishKeeps(r: Ring, g: Ledger)
    requires RingOk(r, g) && OwnerOk(r, g) && !r.overflow
    requires r.owner.PutPublish?
    ensures Kept(r, g, OwnerNext(r).0, Note(r, g, OwnerNext(r).1))
  {
    PublishBack(r, g, OwnerNext(r).0, [r.owner.t]);
  }

  lemma PutNextKeeps(r: Ring, g: Ledger)
    requires RingOk(r, g) && OwnerOk(r, g) && !r.overflow
    requires r.owner.PutNextLoad? || r.owner.PutNextCas?
    ensures Kept(r, g, OwnerNext(r).0, Note(r, g, OwnerNext(r).1))
  {
  }

  lemma GetLoadKeeps(r: Ring, g: Ledger)
    requires RingOk(r, g) && OwnerOk(r, g) && !r.overflow
    requires r.owner.GetLoad? || r.owner.GetTest?
    ensures Kept(r, g, OwnerNext(r).0, Note(r, g, OwnerNext(r).1))
  {
    var (r2, e) := OwnerNext(r);
    assert Conserved(Note(r, g, e), r2.next, Hand(r2.owner));
    hide Conserved, SlotsOk, Slot;
    if r.owner.GetTest? { WrappedEqual(|g.put|, g.ownerHead); }
  }

  lemma GetReadKeeps(r: Ring, g: Ledger)
    requires RingOk(r, g) && OwnerOk(r, g) && !r.overflow
    requires r.owner.GetRead?
    ensures Kept(r, g, OwnerNext(r).0, Note(r, g, OwnerNext(r).1))
  {
    SlotOfWrapped(g.ownerHead);
    hide Conserved;
  }

  /** The head the owner loaded is at most 256 behind, so its swap cannot be fooled. */
  lemma GetCasKeeps(r: Ring, g: Ledger)
    requires RingOk(r, g) && OwnerOk(r, g) && !r.overflow
    requires r.owner.GetCas?
    ensures Kept(r, g, OwnerNext(r).0, Note(r, g, OwnerNext(r).1))
  {
    WrappedEqual(g.head, g.ownerHead);
    if r.head == r.owner.h {
      assert [r.owner.t] == g.put[g.head..g.head + 1];
      TakeFront(r, g, OwnerNext(r).0, [r.owner.t]);
    }
    hide Conserved, SlotsOk;
  }

  lemma GetNextKeeps(r: Ring, g: Ledger)
    requires RingOk(r, g) && OwnerOk(r, g) && !r.overflow
    requires r.owner.GetNextLoad? || (r.owner.GetNextCas? && r.next != Some(r.owner.held))
    ensures Kept(r, g, OwnerNext(r).0, Note(r, g, OwnerNext(r).1))
  {
  }

  lemma TakeNextKeeps(r: Ring, g: Ledger)
    requires RingOk(r, g) && OwnerOk(r, g) && !r.overflow
    requires r.owner.GetNextCas? && r.next == Some(r.owner.held)
    ensures Kept(r, g, OwnerNext(r).0, Note(r, g, OwnerNext(r).1))
  {
    TakeNextConserves(r, g, r.owner.held, []);
  }

  lemma FillLoadKeeps(r: Ring, g: Ledger)
    requires RingOk(r, g) && OwnerOk(r, g) && !r.overflow
    requires r.owner.FillLoad?
    ensures Kept(r, g, OwnerNext(r).0, Note(r, g, OwnerNext(r).1))
  {
    hide Conserved, SlotsOk;
  }

  /** The batch stored behind the tail of an empty ring fits, and is published. */
  lemma FillPublishKeeps(r: Ring, g: Ledger)
    requires RingOk(r, g) && OwnerOk(r, g) && !r.overflow
    requires r.owner.FillPublish?
    ensures Kept(r, g, OwnerNext(r).0, Note(r, g, OwnerNext(r).1))
  {
    var (r2, e) := OwnerNext(r);
    var ts := r.owner.batch[..|r.owner.batch| - 1];
    assert e == Publish(ts) && r2.owner.Idle? && !r2.overflow && r2.tail == Add32(r.tail, |ts|);
    PublishBack(r, g, r2, ts);
    hide RingOk;
  }

  lemma IdleKeeps(r: Ring, g: Ledger)
    requires RingOk(r, g) && OwnerOk(r, g) && !r.overflow
    requires r.owner.Idle? || r.owner.Empty? || r.owner.Fill?
    ensures Kept(r, g, OwnerNext(r).0, Note(r, g, OwnerNext(r).1))
  {
  }

  lemma OwnerKept(r: Ring, g: Ledger)
    requires RingOk(r, g) && OwnerOk(r, g) && !r.overflow
    ensures Kept(r, g, OwnerNext(r).0, Note(r, g, OwnerNext(r).1))
  {
    hide RingOk, OwnerOk, OwnerNext, Kept, Note;
    match r.owner {
      case PutNextLoad(_) => PutNextKeeps(r, g);
      case PutNextCas(_, _) => PutNextKeeps(r, g);
      case PutLoad(_) => PutKeeps(r, g);
      case PutTest(_, _) => PutKeeps(r, g);
      case PutStore(_, _) => StoreKeeps(r, g);
      case PutPublish(_, _) => PublishKeeps(r, g);
      case GetNextLoad => GetNextKeeps(r, g);
      case GetNextCas(held) => if r.next == Some(held) { TakeNextKeeps(r, g); } else { GetNextKeeps(r, g); }
      case GetLoad => GetLoadKeeps(r, g);
      case GetTest(_) => GetLoadKeeps(r, g);
      case GetRead(_) => GetReadKeeps(r, g);
      case GetCas(_, _) => GetCasKeeps(r, g);
      case FillLoad(_, _) => FillLoadKeeps(r, g);
      case FillPublish(_, _, _) => FillPublishKeeps(r, g);
      case _ => IdleKeeps(r, g);
    }
  }

  lemma OwnerKeeps(r: Ring, g: Ledger)
    requires Inv(r, g)
    ensures Inv(OwnerNext(r).0, Note(r, g, OwnerNext(r).1))
  {
    OwnerKept(r, g);
    var r2, g2 := OwnerNext(r).0, Note(r, g, OwnerNext(r).1);
    hide OwnerNext, Note, OwnerOk;
    assert g2.head <= |g2.put|;
    hide RingOk;
    AgentsKeep(r, g, r2, g2);
  }

  /**
   What lets wrapped counters stand for the real ones: the head has not lapped a thief that is about to
   swap it.
   */
  ghost predicate Window(r: Ring, g: Ledger, a: Action) {
    match a
    case ThiefStep(id) =>
      id in r.thieves && r.thieves[id].Copy? && |r.thieves[id].batch| >= r.thieves[id].n && id in g.thiefHead ==>
        !Lapped(g.thiefHead[id], g.head)
    case _ => true
  }

  /** A step of thief `id` that leaves the ring in order leaves the other agents in order. */
  lemma OthersKeep(r: Ring, g: Ledger, r2: Ring, g2: Ledger, id: nat, th: Thief)
    requires Inv(r, g)
    requires RingOk(r2, g2) && !r2.overflow && r2.owner == r.owner && g2.ownerHead == g.ownerHead
    requires r2.thieves == r.thieves[id := th] && r2.askers == r.askers && r2.slots == r.slots
    requires g.head <= g2.head && g2.put == g.put
    requires g2.askHead == g.askHead && g2.askTail == g.askTail && g2.askNow == g.askNow && g2.askSaw == g.askSaw
    requires g2.thiefHead == g.thiefHead || (id in g2.thiefHead && g2.thiefHead == g.thiefHead[id := g2.thiefHead[id]])
    requires forall i :: i != id ==> Seen(g2, i) == Seen(g, i)
    requires id in g2.thiefHead || th.LoadHead? || th.Off?
    requires id in g2.thiefHead ==> ThiefOk(th, g2.thiefHead[id], Seen(g2, id), g2.head, g2.put)
    ensures Inv(r2, g2)
  {
    assert AskersOk(r2, g2) by {
      forall i | i in r.askers
        ensures AskerOk(r.askers[i], i, g2)
      {
        assert AskerOk(r.askers[i], i, g);
      }
    }
    assert ThievesOk(r2, g2) by {
      forall i | i in r2.thieves && i in g2.thiefHead
        ensures ThiefOk(r2.thieves[i], g2.thiefHead[i], Seen(g2, i), g2.head, g2.put)
      {
        if i != id {
          assert ThiefOk(r.thieves[i], g.thiefHead[i], Seen(g, i), g.head, g.put);
        }
      }
    }
    assert OwnerOk(r2, g2);
  }

  lemma ShareFits(n: int)
    ensures n >= 0 ==> Share(n) <= n
  {
  }

  /** A slot copied is the next task of the ring, unless the head has moved since the thief loaded it. */
  lemma CopyOk(r: Ring, g: Ledger, id: nat)
    requires Inv(r, g) && id in r.thieves && r.thieves[id].Copy?
    requires |r.thieves[id].batch| < r.thieves[id].n
    ensures var r2 := ThiefNext(r, id).0;
      id in r2.thieves && ThiefOk(r2.thieves[id], g.thiefHead[id], Seen(g, id), g.head, g.put)
  {
    var th := r.thieves[id];
    var loaded := g.thiefHead[id];
    assert ThiefOk(th, loaded, Seen(g, id), g.head, g.put);
    var k := loaded + |th.batch|;
    WrappedAdd(loaded, |th.batch|);
    SlotOfWrapped(k);
    ShareFits(Seen(g, id) - loaded);
    hide Conserved, OwnerOk, AskersOk, ThievesOk, Share;
    if loaded == g.head {
      assert g.put[g.head..k + 1] == g.put[g.head..k] + [g.put[k]];
    }
  }

  lemma CopyKeeps(r: Ring, g: Ledger, id: nat)
    requires Inv(r, g) && id in r.thieves && r.thieves[id].Copy?
    requires |r.thieves[id].batch| < r.thieves[id].n
    ensures Inv(ThiefNext(r, id).0, Note(r, g, ThiefNext(r, id).1))
  {
    CopyOk(r, g, id);
    var (r2, e) := ThiefNext(r, id);
    hide ThiefOk;
    OthersKeep(r, g, r2, g, id, r2.thieves[id]);
  }

  /** The CAS that commits a grab succeeds only on the front segment of the ring. */
  lemma CommitTakesFront(r: Ring, g: Ledger, id: nat)
    requires Inv(r, g) && id in r.thieves && r.thieves[id].Copy?
    requires |r.thieves[id].batch| >= r.thieves[id].n && Window(r, g, ThiefStep(id))
    ensures ThiefNext(r, id).1.TakeRing? <==> g.thiefHead[id] == g.head
    ensures ThiefNext(r, id).1.TakeRing? ==>
              var b := ThiefNext(r, id).1.ts;
              && g.head < Seen(g, id) <= |g.put| && |b| == Share(Seen(g, id) - g.head) <= 128
              && b == g.put[g.head..g.head + |b|]
  {
    assert ThiefOk(r.thieves[id], g.thiefHead[id], Seen(g, id), g.head, g.put);
    WrappedEqual(g.head, g.thiefHead[id]);
  }

  /** The wrapped CAS gives the right verdict exactly when the head has not lapped the thief. */
  lemma VerdictExact(r: Ring, g: Ledger, id: nat)
    requires Inv(r, g) && id in r.thieves && r.thieves[id].Copy?
    requires |r.thieves[id].batch| >= r.thieves[id].n
    ensures (ThiefNext(r, id).1.TakeRing? <==> g.thiefHead[id] == g.head) <==> !Lapped(g.thiefHead[id], g.head)
  {
    assert ThiefOk(r.thieves[id], g.thiefHead[id], Seen(g, id), g.head, g.put);
    WrappedEqual(g.head, g.thiefHead[id]);
  }

  /** What an emptiness test would do next if its counters did not wrap. */
  function TrueAnswer(a: Asker, head: nat, tail: nat, now: nat): Asker
    requires a.AskAgain?
  {
    if tail == now then Answered(head == tail && a.next.None?) else AskHead
  }

  /** An emptiness test does what it would with counters that never wrap exactly when none has lapped. */
  lemma AnswerExact(r: Ring, g: Ledger, id: nat)
    requires Inv(r, g) && id in r.askers && r.askers[id].AskAgain?
    ensures id in g.askHead && id in g.askTail
    ensures AskNextStep(r, id).0.askers[id] == TrueAnswer(r.askers[id], g.askHead[id], g.askTail[id], |g.put|)
       <==> && !Lapped(g.askTail[id], |g.put|)
            && (g.askTail[id] == |g.put| && r.askers[id].next.None? ==> !Lapped(g.askHead[id], g.askTail[id]))
  {
    assert AskerOk(r.askers[id], id, g);
    WrappedEqual(|g.put|, g.askTail[id]);
    WrappedEqual(g.askTail[id], g.askHead[id]);
  }

  /** A swap of the wrapped head that comes out unlike a swap of the true head. */
  ghost predicate Misled(r: Ring, g: Ledger, a: Action) {
    match a
    case ThiefStep(id) =>
      && id in r.thieves && r.thieves[id].Copy? && |r.thieves[id].batch| >= r.thieves[id].n && id in g.thiefHead
      && (ThiefNext(r, id).1.TakeRing? <==> g.thiefHead[id] != g.head)
    case _ => false
  }

  /** The window excludes the misled swaps and no others. */
  lemma WindowExact(r: Ring, g: Ledger, a: Action)
    requires Inv(r, g)
    ensures Window(r, g, a) <==> !Misled(r, g, a)
  {
    if a.ThiefStep? && a.id in r.thieves && r.thieves[a.id].Copy?
       && |r.thieves[a.id].batch| >= r.thieves[a.id].n
    {
      VerdictExact(r, g, a.id);
    }
    hide Inv;
  }

  lemma CommitKeeps(r: Ring, g: Ledger, id: nat)
    requires Inv(r, g) && id in r.thieves && r.thieves[id].Copy?
    requires |r.thieves[id].batch| >= r.thieves[id].n && Window(r, g, ThiefStep(id))
    ensures Inv(ThiefNext(r, id).0, Note(r, g, ThiefNext(r, id).1))
  {
    var th := r.thieves[id];
    var (r2, e) := ThiefNext(r, id);
    CommitTakesFront(r, g, id);
    if e.TakeRing? {
      TakeFront(r, g, r2, th.batch);
    }
    OthersKeep(r, g, r2, Note(r, g, e), id, r2.thieves[id]);
  }

  lemma LoadTailOk(r: Ring, g: Ledger, id: nat)
    requires CountersOk(r, g) && id in r.thieves && r.thieves[id].LoadTail? && id in g.thiefHead
    requires ThiefOk(r.thieves[id], g.thiefHead[id], Seen(g, id), g.head, g.put)
    ensures var (r2, e) := ThiefNext(r, id);
      && id in r2.thieves && r2 == r.(thieves := r.thieves[id := r2.thieves[id]]) && e == ThiefLoadsTail(id)
      && ThiefOk(r2.thieves[id], g.thiefHead[id], |g.put|, g.head, g.put)
  {
    if g.thiefHead[id] == g.head { WrappedDifference(|g.put|, g.head); }
  }

  lemma LoadTailKeeps(r: Ring, g: Ledger, id: nat)
    requires Inv(r, g) && id in r.thieves && r.thieves[id].LoadTail?
    ensures Inv(ThiefNext(r, id).0, Note(r, g, ThiefNext(r, id).1))
  {
    assert ThiefOk(r.thieves[id], g.thiefHead[id], Seen(g, id), g.head, g.put);
    LoadTailOk(r, g, id);
    assert RingOk(r.(thieves := ThiefNext(r, id).0.thieves), Note(r, g, ThiefLoadsTail(id)));
    hide Inv, ThiefNext, ThiefOk, RingOk;
    var (r2, e) := ThiefNext(r, id);
    OthersKeep(r, g, r2, Note(r, g, e), id, r2.thieves[id]);
  }

  /** What a thief makes of the counters it has loaded, if the head has not moved: its share of the ring, or none. */
  lemma GrabDecides(r: Ring, g: Ledger, id: nat)
    requires Inv(r, g) && id in r.thieves && r.thieves[id].LoadTail? && g.thiefHead[id] == g.head
    ensures var sn, h, n := r.thieves[id].stealNext, r.thieves[id].h, |g.put| - g.head;
      ThiefNext(r, id).0.thieves[id] ==
        if n > 0 then Copy(sn, h, Share(n), []) else if sn then LoadNext else Off
  {
    assert ThiefOk(r.thieves[id], g.thiefHead[id], Seen(g, id), g.head, g.put);
    WrappedDifference(|g.put|, g.head);
  }

  lemma CasNextRing(r: Ring, g: Ledger, id: nat)
    requires RingOk(r, g) && id in r.thieves && r.thieves[id].CasNext?
    ensures RingOk(ThiefNext(r, id).0, Note(r, g, ThiefNext(r, id).1))
  {
    if ThiefNext(r, id).1.TakeNext? { TakeNextConserves(r, g, r.next.value, Hand(r.owner)); }
    hide Conserved, SlotsOk;
  }

  lemma CasNextFrame(r: Ring, g: Ledger, id: nat)
    requires id in r.thieves && r.thieves[id].CasNext?
    ensures var (r2, e) := ThiefNext(r, id);
      && id in r2.thieves && r2 == r.(next := r2.next, thieves := r.thieves[id := r2.thieves[id]])
      && (r2.thieves[id].LoadHead? || r2.thieves[id].Off?)
      && (e.Quiet? || e.TakeNext?)
  {
  }

  lemma CasNextKeeps(r: Ring, g: Ledger, id: nat)
    requires Inv(r, g) && id in r.thieves && r.thieves[id].CasNext?
    ensures Inv(ThiefNext(r, id).0, Note(r, g, ThiefNext(r, id).1))
  {
    CasNextRing(r, g, id);
    CasNextFrame(r, g, id);
    var (r2, e) := ThiefNext(r, id);
    hide Inv, RingOk, ThiefNext;
    OthersKeep(r, g, r2, Note(r, g, e), id, r2.thieves[id]);
  }

  lemma LoadKeeps(r: Ring, g: Ledger, id: nat)
    requires Inv(r, g) && id in r.thieves
    requires r.thieves[id].LoadHead? || r.thieves[id].LoadNext? || r.thieves[id].Off?
    ensures Inv(ThiefNext(r, id).0, Note(r, g, ThiefNext(r, id).1))
  {
    var (r2, e) := ThiefNext(r, id);
    OthersKeep(r, g, r2, Note(r, g, e), id, r2.thieves[id]);
  }

  lemma ThiefKeeps(r: Ring, g: Ledger, id: nat)
    requires Inv(r, g) && id in r.thieves && Window(r, g, ThiefStep(id))
    ensures Inv(ThiefNext(r, id).0, Note(r, g, ThiefNext(r, id).1))
  {
    match r.thieves[id] {
      case Copy(_, _, n, batch) => if |batch| < n { CopyKeeps(r, g, id); } else { CommitKeeps(r, g, id); }
      case LoadTail(_, _) => LoadTailKeeps(r, g, id);
      case CasNext(_) => CasNextKeeps(r, g, id);
      case _ => LoadKeeps(r, g, id);
    }
  }

  lemma AskerLoads(r: Ring, g: Ledger, id: nat)
    requires CountersOk(r, g) && id in r.askers && AskerOk(r.askers[id], id, g)
    requires r.askers[id].AskHead? || r.askers[id].AskTail?
    ensures id in AskNextStep(r, id).0.askers
    ensures AskerOk(AskNextStep(r, id).0.askers[id], id, Note(r, g, AskNextStep(r, id).1))
  {
  }

  lemma AskerAnswers(r: Ring, g: Ledger, id: nat)
    requires CountersOk(r, g) && id in r.askers && AskerOk(r.askers[id], id, g)
    requires r.askers[id].AskNext? || r.askers[id].AskAgain? || r.askers[id].Answered?
    ensures id in AskNextStep(r, id).0.askers
    ensures AskerOk(AskNextStep(r, id).0.askers[id], id, Note(r, g, AskNextStep(r, id).1))
  {
  }

  lemma AskerStep(r: Ring, g: Ledger, id: nat)
    requires CountersOk(r, g) && id in r.askers && AskerOk(r.askers[id], id, g)
    ensures id in AskNextStep(r, id).0.askers
    ensures AskerOk(AskNextStep(r, id).0.askers[id], id, Note(r, g, AskNextStep(r, id).1))
  {
    hide AskerOk, AskNextStep, Note, CountersOk;
    match r.askers[id]
    case AskHead => AskerLoads(r, g, id);
    case AskTail(_) => AskerLoads(r, g, id);
    case _ => AskerAnswers(r, g, id);
  }

  /** What a step of asker `id` leaves alone. */
  predicate AskedOnly(r: Ring, g: Ledger, r2: Ring, g2: Ledger, id: nat) {
    && id in r2.askers && r2 == r.(askers := r.askers[id := r2.askers[id]])
    && g2 == g.(askHead := g2.askHead, askTail := g2.askTail, askNow := g2.askNow, askSaw := g2.askSaw)
    && (forall i :: i != id && i in g.askHead ==> i in g2.askHead && g2.askHead[i] == g.askHead[i])
    && (forall i :: i != id && i in g.askTail ==> i in g2.askTail && g2.askTail[i] == g.askTail[i])
    && (forall i :: i != id && i in g.askNow ==> i in g2.askNow && g2.askNow[i] == g.askNow[i])
    && (forall i :: i != id && i in g.askSaw ==> i in g2.askSaw && g2.askSaw[i] == g.askSaw[i])
  }

  lemma AskFrame(r: Ring, g: Ledger, id: nat)
    requires id in r.askers
    ensures AskedOnly(r, g, AskNextStep(r, id).0, Note(r, g, AskNextStep(r, id).1), id)
  {
    AskedRing(r, id);
    hide AskNextStep;
    AskedLedger(r, g, AskNextStep(r, id).1, id);
    hide Note;
  }

  predicate AskEvent(e: Event, id: nat) {
    || e == Quiet || e == AskerLoadsHead(id) || e == AskerLoadsTail(id) || e == AskerLoadsNext(id)
    || e == AskerLoadsAgain(id)
  }

  lemma AskedLedger(r: Ring, g: Ledger, e: Event, id: nat)
    requires AskEvent(e, id)
    ensures var g2 := Note(r, g, e);
      && g2 == g.(askHead := g2.askHead, askTail := g2.askTail, askNow := g2.askNow, askSaw := g2.askSaw)
      && (forall i :: i != id && i in g.askHead ==> i in g2.askHead && g2.askHead[i] == g.askHead[i])
      && (forall i :: i != id && i in g.askTail ==> i in g2.askTail && g2.askTail[i] == g.askTail[i])
      && (forall i :: i != id && i in g.askNow ==> i in g2.askNow && g2.askNow[i] == g.askNow[i])
      && (forall i :: i != id && i in g.askSaw ==> i in g2.askSaw && g2.askSaw[i] == g.askSaw[i])
  {
  }

  lemma AskedRing(r: Ring, id: nat)
    requires id in r.askers
    ensures var r2 := AskNextStep(r, id).0; id in r2.askers && r2 == r.(askers := r.askers[id := r2.askers[id]])
    ensures AskEvent(AskNextStep(r, id).1, id)
  {
  }

  lemma AskKeeps(r: Ring, g: Ledger, id: nat)
    requires Inv(r, g) && id in r.askers
    ensures Inv(AskNextStep(r, id).0, Note(r, g, AskNextStep(r, id).1))
  {
    assert AskerOk(r.askers[id], id, g) && CountersOk(r, g);
    hide Inv, AskerOk, CountersOk;
    AskerStep(r, g, id);
    AskFrame(r, g, id);
    hide AskedOnly, AskNextStep, Note;
    AskersKeep(r, g, AskNextStep(r, id).0, Note(r, g, AskNextStep(r, id).1), id);
  }

  lemma OtherAskersKeep(r: Ring, g: Ledger, r2: Ring, g2: Ledger, id: nat)
    requires AskersOk(r, g) && AskedOnly(r, g, r2, g2, id) && AskerOk(r2.askers[id], id, g2)
    ensures AskersOk(r2, g2)
  {
    forall i | i in r2.askers
      ensures AskerOk(r2.askers[i], i, g2)
    {
      if i != id {
        assert AskerOk(r.askers[i], i, g);
      }
    }
  }

  /** A step of asker `id` leaves everything but its own entries alone. */
  lemma AskersKeep(r: Ring, g: Ledger, r2: Ring, g2: Ledger, id: nat)
    requires Inv(r, g) && AskedOnly(r, g, r2, g2, id) && AskerOk(r2.askers[id], id, g2)
    ensures Inv(r2, g2)
  {
    OtherAskersKeep(r, g, r2, g2, id);
    hide AskersOk, AskerOk, ThiefOk, SlotsOk;
  }

  // ---------------------------------------------------------------------------------------------
  // Calls, and every step

  lemma FromKept(r: Ring, g: Ledger, r2: Ring, g2: Ledger)
    requires Inv(r, g) && Kept(r, g, r2, g2)
    ensures Inv(r2, g2)
  {
    AgentsKeep(r, g, r2, g2);
  }

  lemma CallPutKeeps(r: Ring, g: Ledger, a: Action)
    requires RingOk(r, g) && OwnerOk(r, g) && !r.overflow && a.CallPut?
    ensures Kept(r, g, Step(r, a).0, Note(r, g, Step(r, a).1))
  {
    if r.owner.Idle? || r.owner.Empty? {
      SubmitConserves(r, g, a.t, r.next);
    }
  }

  lemma CallGetKeeps(r: Ring, g: Ledger, a: Action)
    requires RingOk(r, g) && OwnerOk(r, g) && !r.overflow && (a.CallGet? || a.CallSteal?)
    ensures Kept(r, g, Step(r, a).0, Note(r, g, Step(r, a).1))
  {
  }

  lemma FillSlotKeeps(r: Ring, g: Ledger, t: Task)
    requires RingOk(r, g) && OwnerOk(r, g) && !r.overflow
    requires r.owner.Fill? && |r.owner.batch| < 128
    ensures Kept(r, g, Step(r, FillSlot(t)).0, g)
  {
    var (r2, _) := Step(r, FillSlot(t));
    var n := |r.owner.batch|;
    WrappedAdd(|g.put|, n);
    SlotOfWrapped(|g.put| + n);
    WriteDead(r.slots, g.head, g.put, n, t);
    forall i: nat | i < n
      ensures r2.slots[(|g.put| + i) % 256] == r.owner.batch[i]
    {
      SlotsApart(|g.put| + i, |g.put| + n);
    }
  }

  lemma FillRetryKeeps(r: Ring, g: Ledger)
    requires RingOk(r, g) && OwnerOk(r, g) && !r.overflow && r.owner.Fill?
    ensures Kept(r, g, Step(r, FillRetry).0, g)
  {
  }

  lemma FillDoneRing(r: Ring, g: Ledger)
    requires RingOk(r, g) && r.owner.Fill? && |r.owner.batch| > 0
    ensures RingOk(Step(r, FillDone).0, Note(r, g, Step(r, FillDone).1))
  {
    var b := r.owner.batch;
    var o2 := if |b| == 1 then Idle else FillLoad(r.owner.tail, b);
    hide Conserved, Hand, SlotsOk;
    assert Hand(r.owner) == [] by { HandWhileFilling(r.owner); }
    ReceiveConserves(r, g, b, r.next);
    HandAfterFill(r.owner.tail, b);
    hide RingOk;
    SameRing(r, g, r.(owner := o2), Note(r, g, Receive(b)));
  }

  lemma HandWhileFilling(o: Owner)
    requires o.Fill?
    ensures Hand(o) == []
  {
  }

  lemma FillDoneKeeps(r: Ring, g: Ledger)
    requires RingOk(r, g) && OwnerOk(r, g) && !r.overflow && r.owner.Fill?
    ensures Kept(r, g, Step(r, FillDone).0, Note(r, g, Step(r, FillDone).1))
  {
    hide RingOk;
    if |r.owner.batch| > 0 { FillDoneRing(r, g); }
  }

  lemma HandAfterFill(tail: u32, b: seq<Task>)
    requires |b| > 0
    ensures Hand(if |b| == 1 then Idle else FillLoad(tail, b)) == b[..|b| - 1]
  {
  }

  /** The ring is in order when only its owner's step and the count of tasks have changed. */
  lemma SameRing(r: Ring, g: Ledger, r2: Ring, g2: Ledger)
    requires RingOk(r, g)
    requires r2.head == r.head && r2.tail == r.tail && r2.slots == r.slots
    requires g2.head == g.head && g2.put == g.put && g2.batches == g.batches
    requires Conserved(g2, r2.next, Hand(r2.owner))
    ensures RingOk(r2, g2)
  {
  }

  lemma OtherCallKeeps(r: Ring, g: Ledger, a: Action)
    requires Inv(r, g)
    requires a.ThiefCall? || a.AskCall?
    ensures Inv(Step(r, a).0, Note(r, g, Step(r, a).1))
  {
    var (r2, e) := Step(r, a);
    if a.ThiefCall? && r2 != r {
      OthersKeep(r, g, r2, g, a.id, r2.thieves[a.id]);
    } else if a.AskCall? && r2 != r {
      AskersKeep(r, g, r2, g, a.id);
    }
  }

  /** Every step of every agent keeps the invariant. */
  lemma StepKeeps(r: Ring, g: Ledger, a: Action)
    requires Inv(r, g) && Window(r, g, a)
    ensures Inv(Step(r, a).0, Note(r, g, Step(r, a).1))
  {
    match a {
      case OwnerStep => OwnerKeeps(r, g);
      case ThiefStep(id) => if id in r.thieves { ThiefKeeps(r, g, id); }
      case AskStep(id) => if id in r.askers { AskKeeps(r, g, id); }
      case ThiefCall(_, _) => OtherCallKeeps(r, g, a);
      case AskCall(_) => OtherCallKeeps(r, g, a);
      case _ => OwnerCallKeeps(r, g, a);
    }
  }

  lemma OwnerCallKeeps(r: Ring, g: Ledger, a: Action)
    requires Inv(r, g)
    requires !a.OwnerStep? && !a.ThiefStep? && !a.AskStep? && !a.ThiefCall? && !a.AskCall?
    ensures Inv(Step(r, a).0, Note(r, g, Step(r, a).1))
  {
    var (r2, e) := Step(r, a);
    if r2 != r {
      match a {
        case CallPut(_, _) => CallPutKeeps(r, g, a);
        case FillSlot(t) => FillSlotKeeps(r, g, t);
        case FillRetry => FillRetryKeeps(r, g);
        case FillDone => FillDoneKeeps(r, g);
        case _ => CallGetKeeps(r, g, a);
      }
      FromKept(r, g, r2, Note(r, g, e));
    }
  }
}

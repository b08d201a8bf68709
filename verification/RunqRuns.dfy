/** Whole runs of the run-queue protocol, and the one way its 32-bit counters can go wrong. */
module RunqRuns {
  import opened Base
  import opened RunqProtocol
  import opened RunqSafety

  /** A ring before its first use. */
  ghost predicate Start(r: Ring, g: Ledger) {
    && r.head == r.tail == 0
    && r.next.None? && r.owner.Idle? && r.thieves == map[] && r.askers == map[] && !r.overflow
    && g == Ledger(0, [], [], [], [], 0, map[], map[], map[], map[], map[], map[])
  }

  /** The ring and its ledger after the steps of schedule `s`. */
  ghost function Run(r: Ring, g: Ledger, s: seq<Action>): (Ring, Ledger) {
    if s == [] then (r, g)
    else
      var (r1, g1) := Run(r, g, s[..|s| - 1]);
      var (r2, e) := Step(r1, s[|s| - 1]);
      (r2, Note(r1, g1, e))
  }

  /** No thief of the schedule is lapped by the head between its load and its swap. */
  ghost predicate Timely(r: Ring, g: Ledger, s: seq<Action>) {
    s == [] ||
    (Timely(r, g, s[..|s| - 1]) &&
     var (r1, g1) := Run(r, g, s[..|s| - 1]); Window(r1, g1, s[|s| - 1]))
  }

  lemma {:induction false} RunKeeps(r: Ring, g: Ledger, s: seq<Action>)
    requires Inv(r, g) && Timely(r, g, s)
    ensures Inv(Run(r, g, s).0, Run(r, g, s).1)
  {
    if s != [] {
      var front := s[..|s| - 1];
      RunKeeps(r, g, front);
      var (r1, g1) := Run(r, g, front);
      StepKeeps(r1, g1, s[|s| - 1]);
    }
  }

  lemma StartHolds(r: Ring, g: Ledger)
    requires Start(r, g)
    ensures Inv(r, g)
  {
  }

  /** The position in the ring's history at which batch i begins. */
  function Offset(bs: seq<seq<Task>>, i: nat): nat
    requires i <= |bs|
  {
    |Concat(bs[..i])|
  }

  ghost predicate Covers(bs: seq<seq<Task>>, i: nat, k: nat) {
    i < |bs| && Offset(bs, i) <= k < Offset(bs, i + 1)
  }

  lemma {:induction false} OneBatchEach(bs: seq<seq<Task>>, k: nat) returns (i: nat)
    requires k < |Concat(bs)|
    ensures Covers(bs, i, k) && k - Offset(bs, i) < |bs[i]|
    ensures bs[i][k - Offset(bs, i)] == Concat(bs)[k]
    ensures forall j: nat :: Covers(bs, j, k) ==> j == i
  {
    var last := |bs| - 1;
    var front := bs[..last];
    assert bs[..|bs|] == bs;
    if k >= |Concat(front)| {
      i := last;
      forall j: nat | j < last
        ensures !Covers(bs, j, k)
      {
        OffsetMonotone(bs, j + 1, last);
      }
    } else {
      i := OneBatchEach(front, k);
      assert front[..i] == bs[..i] && front[..i + 1] == bs[..i + 1];
      forall j: nat | j < last
        ensures Covers(bs, j, k) == Covers(front, j, k)
      {
        assert front[..j] == bs[..j] && front[..j + 1] == bs[..j + 1];
      }
    }
  }

  lemma {:induction false} OffsetMonotone(bs: seq<seq<Task>>, i: nat, j: nat)
    requires i <= j <= |bs|
    ensures Offset(bs, i) <= Offset(bs, j)
  {
    if i < j {
      OffsetMonotone(bs, i, j - 1);
      assert bs[..j][..j - 1] == bs[..j - 1];
    }
  }

  /**
   Over every schedule: no overflow panic; every task that has left the ring left it through exactly
   one successful compare-and-swap, in the order of the puts; and every task ever offered is, as many
   times as it was offered, taken, in the ring, in runnext or in the owner's hand.
   */
  lemma ExactlyOnce(r: Ring, g: Ledger, s: seq<Action>, k: nat) returns (i: nat)
    requires Start(r, g) && Timely(r, g, s)
    requires k < Run(r, g, s).1.head
    ensures var (r2, g2) := Run(r, g, s);
            && !r2.overflow && g2.head <= |g2.put|
            && Concat(g2.batches) == g2.put[..g2.head]
            && Covers(g2.batches, i, k) && k - Offset(g2.batches, i) < |g2.batches[i]|
            && g2.batches[i][k - Offset(g2.batches, i)] == g2.put[k]
            && (forall j: nat :: Covers(g2.batches, j, k) ==> j == i)
  {
    StartHolds(r, g);
    RunKeeps(r, g, s);
    i := OneBatchEach(Run(r, g, s).1.batches, k);
  }

  lemma NoTaskLost(r: Ring, g: Ledger, s: seq<Action>, t: Task)
    requires Start(r, g) && Timely(r, g, s)
    ensures var (r2, g2) := Run(r, g, s);
            && g2.head <= |g2.put| <= g2.head + 256
            && Count(g2.offered, t) == Count(g2.gone, t) + Count(g2.put[g2.head..], t)
                                       + Count(Held(r2.next), t) + Count(Hand(r2.owner), t)
  {
    StartHolds(r, g);
    RunKeeps(r, g, s);
  }

  /** Step i of the schedule is a misled swap. */
  ghost predicate MisledAt(r: Ring, g: Ledger, s: seq<Action>, i: nat) {
    i < |s| && Misled(Run(r, g, s[..i]).0, Run(r, g, s[..i]).1, s[i])
  }

  /** A schedule is timely exactly when none of its swaps is misled. */
  lemma {:induction false} TimelyExact(r: Ring, g: Ledger, s: seq<Action>)
    requires Inv(r, g)
    ensures Timely(r, g, s) <==> forall i: nat :: !MisledAt(r, g, s, i)
  {
    hide Inv, Misled, Window, Run;
    if s != [] {
      var last := |s| - 1;
      var front := s[..last];
      TimelyExact(r, g, front);
      forall i: nat | i < last ensures MisledAt(r, g, s, i) == MisledAt(r, g, front, i) {
        assert front[..i] == s[..i];
      }
      if Timely(r, g, front) {
        RunKeeps(r, g, front);
        WindowExact(Run(r, g, front).0, Run(r, g, front).1, s[last]);
        assert MisledAt(r, g, s, last) == Misled(Run(r, g, front).0, Run(r, g, front).1, s[last]);
      }
    }
  }

  /**
   p_runqempty says "empty" for the right reason, ring and runnext both empty when it read runnext, if
   the counters have not lapped each other between its loads. If they have, then the loads saw different
   counters that wrap to the same value: EmptyButFull is such a schedule.
   */
  lemma EmptyIsTrue(r: Ring, g: Ledger, s: seq<Action>, id: nat)
    requires Start(r, g) && Timely(r, g, s)
    requires var r2 := Run(r, g, s).0; id in r2.askers && r2.askers[id] == Answered(true)
    ensures var g2 := Run(r, g, s).1;
      && id in g2.askHead && id in g2.askTail && id in g2.askNow && id in g2.askSaw
      && (g2.askHead[id] == g2.askTail[id] == g2.askNow[id]
          <==> !Lapped(g2.askHead[id], g2.askTail[id]) && !Lapped(g2.askTail[id], g2.askNow[id]))
      && (!Lapped(g2.askHead[id], g2.askTail[id]) && !Lapped(g2.askTail[id], g2.askNow[id]) ==> g2.askSaw[id])
  {
    StartHolds(r, g);
    RunKeeps(r, g, s);
    var (r2, g2) := Run(r, g, s);
    assert AskerOk(r2.askers[id], id, g2);
    hide Inv, Run;
    WrappedEqual(g2.askTail[id], g2.askHead[id]);
    WrappedEqual(g2.askNow[id], g2.askTail[id]);
  }

  // ---------------------------------------------------------------------------------------------
  // Counters that lap

  lemma NoSteps(r: Ring, g: Ledger)
    ensures Run(r, g, []) == (r, g)
  {
  }

  /** Schedule `s` leads to ring r1 and ledger g1; one more step `a`, with result (r2, e). */
  lemma Then(r: Ring, g: Ledger, s: seq<Action>, r1: Ring, g1: Ledger, a: Action, r2: Ring, e: Event)
      returns (s2: seq<Action>, g2: Ledger)
    requires Run(r, g, s) == (r1, g1) && Step(r1, a) == (r2, e)
    ensures Run(r, g, s2) == (r2, g2) && g2 == Note(r1, g1, e) && s2 == s + [a]
    ensures Timely(r, g, s) && !a.ThiefStep? ==> Timely(r, g, s2)
  {
    s2 := s + [a];
    assert s2[..|s2| - 1] == s;
    g2 := Note(r1, g1, e);
  }

  /** The owner puts task t in a ring that is empty after c takes. */
  lemma PutOne(r: Ring, g: Ledger, s: seq<Action>, r0: Ring, g0: Ledger, c: int, t: Task)
      returns (s2: seq<Action>, r2: Ring, g2: Ledger)
    requires Run(r, g, s) == (r0, g0) && r0.owner.Idle? && r0.head == r0.tail == c % 0x1_0000_0000
    ensures Run(r, g, s2) == (r2, g2) && (Timely(r, g, s) ==> Timely(r, g, s2))
    ensures r2 == r0.(slots := r0.slots[r0.tail % 256 := t], tail := (c + 1) % 0x1_0000_0000)
    ensures g2 == g0.(offered := g0.offered + [t], ownerHead := g0.head, put := g0.put + [t])
  {
    hide Run, Timely;
    WrappedAdd(c, 1);
    WrappedDifference(c, c);
    r2 := r0.(owner := PutLoad(t));
    s2, g2 := Then(r, g, s, r0, g0, CallPut(t, false), r2, Submit(t));
    s2, g2 := Then(r, g, s2, r2, g2, OwnerStep, r2.(owner := PutTest(t, r0.head)), OwnerLoadsHead);
    r2 := r2.(owner := PutTest(t, r0.head));
    s2, g2 := Then(r, g, s2, r2, g2, OwnerStep, r2.(owner := PutStore(t, r0.tail)), Quiet);
    r2 := r2.(owner := PutStore(t, r0.tail));
    var r3 := r2.(slots := r0.slots[r0.tail % 256 := t], owner := PutPublish(t, r0.tail));
    s2, g2 := Then(r, g, s2, r2, g2, OwnerStep, r3, Quiet);
    r2 := r3.(tail := (c + 1) % 0x1_0000_0000, owner := Idle);
    s2, g2 := Then(r, g, s2, r3, g2, OwnerStep, r2, Publish([t]));
  }

  /** The owner gets the only task of the ring. */
  lemma GetOne(r: Ring, g: Ledger, s: seq<Action>, r0: Ring, g0: Ledger, c: nat)
      returns (s2: seq<Action>, r2: Ring, g2: Ledger)
    requires Run(r, g, s) == (r0, g0) && r0.owner.Idle? && r0.next.None?
    requires r0.head == c % 0x1_0000_0000 && r0.tail == (c + 1) % 0x1_0000_0000
    ensures Run(r, g, s2) == (r2, g2) && (Timely(r, g, s) ==> Timely(r, g, s2))
    ensures r2 == r0.(head := (c + 1) % 0x1_0000_0000)
    ensures g2 == g0.(ownerHead := g0.head, head := g0.head + 1, batches := g0.batches + [[Slot(r0, r0.head)]],
                      gone := g0.gone + [Slot(r0, r0.head)])
  {
    hide Run, Timely;
    WrappedAdd(c, 1);
    WrappedEqual(c + 1, c);
    var h, t := r0.head, Slot(r0, r0.head);
    r2 := r0.(owner := GetNextLoad);
    s2, g2 := Then(r, g, s, r0, g0, CallGet, r2, Quiet);
    s2, g2 := Then(r, g, s2, r2, g2, OwnerStep, r2.(owner := GetLoad), Quiet);
    r2 := r2.(owner := GetLoad);
    s2, g2 := Then(r, g, s2, r2, g2, OwnerStep, r2.(owner := GetTest(h)), OwnerLoadsHead);
    r2 := r2.(owner := GetTest(h));
    s2, g2 := Then(r, g, s2, r2, g2, OwnerStep, r2.(owner := GetRead(h)), Quiet);
    r2 := r2.(owner := GetRead(h));
    s2, g2 := Then(r, g, s2, r2, g2, OwnerStep, r2.(owner := GetCas(h, t)), Quiet);
    var r3 := r2.(owner := GetCas(h, t));
    r2 := r3.(head := (c + 1) % 0x1_0000_0000, owner := Idle);
    s2, g2 := Then(r, g, s2, r3, g2, OwnerStep, r2, TakeRing([t]));
  }

  /** The owner is idle, the ring empty after c takes, and thief 0 is about to commit a copy of task 7. */
  ghost predicate Parked(r: Ring, g: Ledger, c: int) {
    && r.owner.Idle? && r.next.None? && r.head == r.tail == c % 0x1_0000_0000
    && r.thieves == map[0 := Copy(false, 0, 1, [7])]
    && Count(g.offered, 7) == 1 && Count(g.gone, 7) == 1
  }

  lemma Cycle(r: Ring, g: Ledger, s: seq<Action>, c: nat) returns (s2: seq<Action>)
    requires Parked(Run(r, g, s).0, Run(r, g, s).1, c)
    ensures Parked(Run(r, g, s2).0, Run(r, g, s2).1, c + 1)
  {
    hide Run;
    var (r0, g0) := Run(r, g, s);
    var s1, r1, g1 := PutOne(r, g, s, r0, g0, c, 8);
    var r2, g2;
    s2, r2, g2 := GetOne(r, g, s1, r1, g1, c);
    CountAppend(g0.offered, [8], 7);
    CountAppend(g0.gone, [8], 7);
  }

  lemma {:induction false} Cycles(r: Ring, g: Ledger, s: seq<Action>, c: nat, n: nat) returns (s2: seq<Action>)
    requires Parked(Run(r, g, s).0, Run(r, g, s).1, c)
    ensures Parked(Run(r, g, s2).0, Run(r, g, s2).1, c + n)
    decreases n
  {
    hide Run;
    s2 := s;
    if n > 0 {
      s2 := Cycle(r, g, s, c);
      s2 := Cycles(r, g, s2, c + 1, n - 1);
    }
  }

  /** Thief 0 loads head and tail of a ring with one task. */
  lemma LoadOne(r: Ring, g: Ledger, s: seq<Action>, r0: Ring, g0: Ledger)
      returns (s2: seq<Action>, r2: Ring, g2: Ledger)
    requires Run(r, g, s) == (r0, g0) && r0.head == 0 && r0.tail == 1 && r0.thieves == map[]
    ensures Run(r, g, s2) == (r2, g2)
    ensures r2 == r0.(thieves := map[0 := Copy(false, 0, 1, [])])
    ensures g2.offered == g0.offered && g2.gone == g0.gone
  {
    hide Run;
    var r1 := r0.(thieves := r0.thieves[0 := LoadHead(false)]);
    s2, g2 := Then(r, g, s, r0, g0, ThiefCall(0, false), r1, Quiet);
    r2 := r1.(thieves := r1.thieves[0 := LoadTail(false, 0)]);
    s2, g2 := Then(r, g, s2, r1, g2, ThiefStep(0), r2, ThiefLoadsHead(0));
    r1 := r2.(thieves := r2.thieves[0 := Copy(false, 0, 1, [])]);
    s2, g2 := Then(r, g, s2, r2, g2, ThiefStep(0), r1, ThiefLoadsTail(0));
    r2 := r1;
  }

  /** Thief 0 copies the only task of the ring and stalls before its CAS. */
  lemma CopyOne(r: Ring, g: Ledger, s: seq<Action>, r0: Ring, g0: Ledger)
      returns (s2: seq<Action>, r2: Ring, g2: Ledger)
    requires Run(r, g, s) == (r0, g0) && r0.head == 0 && r0.tail == 1 && r0.thieves == map[]
    ensures Run(r, g, s2) == (r2, g2)
    ensures r2 == r0.(thieves := map[0 := Copy(false, 0, 1, [r0.slots[0]])])
    ensures g2.offered == g0.offered && g2.gone == g0.gone
  {
    hide Run;
    var r1, g1;
    s2, r1, g1 := LoadOne(r, g, s, r0, g0);
    assert [] + [r0.slots[0]] == [r0.slots[0]];
    r2 := r1.(thieves := r1.thieves[0 := Copy(false, 0, 1, [r0.slots[0]])]);
    s2, g2 := Then(r, g, s2, r1, g1, ThiefStep(0), r2, Quiet);
  }

  /** Thief 0 copies task 7 and stalls; the owner takes task 7. */
  lemma Park(r: Ring, g: Ledger) returns (s: seq<Action>)
    requires Start(r, g)
    ensures Parked(Run(r, g, s).0, Run(r, g, s).1, 1)
  {
    hide Run;
    NoSteps(r, g);
    var s1, r1, g1 := PutOne(r, g, [], r, g, 0, 7);
    s := ParkCopied(r, g, s1, r1, g1);
  }

  lemma ParkCopied(r: Ring, g: Ledger, s: seq<Action>, r1: Ring, g1: Ledger) returns (s3: seq<Action>)
    requires Run(r, g, s) == (r1, g1)
    requires r1.owner.Idle? && r1.next.None? && r1.head == 0 && r1.tail == 1 && r1.thieves == map[]
    requires r1.slots[0] == 7 && g1.offered == [7] && g1.gone == []
    ensures Parked(Run(r, g, s3).0, Run(r, g, s3).1, 1)
  {
    hide Run;
    var s2, r2, g2 := CopyOne(r, g, s, r1, g1);
    var r3, g3;
    s3, r3, g3 := GetOne(r, g, s2, r2, g2, 0);
    assert g3.gone == [7] && g3.offered == [7];
    assert Count(g3.gone, 7) == 1;
    assert r3.owner.Idle? && r3.next.None? && r3.head == r3.tail == 1;
  }

  /**
   The window is needed: there is a schedule in which the head goes once around all of u32 while a
   thief is between its copy and its CAS, and task 7, offered once, is taken twice.
   */
  lemma TakenTwice(r: Ring, g: Ledger) returns (s: seq<Action>)
    requires Start(r, g)
    ensures Count(Run(r, g, s).1.offered, 7) == 1 && Count(Run(r, g, s).1.gone, 7) == 2
    ensures !Timely(r, g, s)
  {
    hide Run, Timely;
    s := Park(r, g);
    s := Cycles(r, g, s, 1, 0x1_0000_0000 - 1);
    var (r1, g1) := Run(r, g, s);
    var (r2, e) := Step(r1, ThiefStep(0));
    assert e == TakeRing([7]);
    CountAppend(g1.gone, [7], 7);
    s, g1 := Then(r, g, s, r1, g1, ThiefStep(0), r2, e);
    if Timely(r, g, s) {
      NoTaskLost(r, g, s, 7);
    }
  }

  /** The owner is idle, c tasks have been put and taken, and asker 0 has loaded head 0. */
  ghost predicate Waiting(r: Ring, g: Ledger, c: nat) {
    && r.owner.Idle? && r.next.None? && r.head == r.tail == c % 0x1_0000_0000 && g.head == |g.put| == c
    && r.askers == map[0 := AskTail(0)] && g.askHead == map[0 := 0]
  }

  lemma {:induction false} Turns(r: Ring, g: Ledger, s: seq<Action>, c: nat, n: nat) returns (s2: seq<Action>)
    requires Timely(r, g, s) && Waiting(Run(r, g, s).0, Run(r, g, s).1, c)
    ensures Timely(r, g, s2) && Waiting(Run(r, g, s2).0, Run(r, g, s2).1, c + n)
    decreases n
  {
    hide Run, Timely;
    s2 := s;
    if n > 0 {
      var (r0, g0) := Run(r, g, s);
      var s1, r1, g1 := PutOne(r, g, s, r0, g0, c, 8);
      var r2, g2;
      s2, r2, g2 := GetOne(r, g, s1, r1, g1, c);
      s2 := Turns(r, g, s2, c + 1, n - 1);
    }
  }

  /** One step of asker 0. */
  lemma AskOne(r: Ring, g: Ledger, s: seq<Action>, r1: Ring, g1: Ledger)
      returns (s2: seq<Action>, r2: Ring, g2: Ledger)
    requires Run(r, g, s) == (r1, g1) && 0 in r1.askers && Timely(r, g, s)
    ensures Run(r, g, s2) == (r2, g2) && Timely(r, g, s2)
    ensures (r2, g2) == (AskNextStep(r1, 0).0, Note(r1, g1, AskNextStep(r1, 0).1))
  {
    hide Run, Timely;
    var e;
    r2, e := AskNextStep(r1, 0).0, AskNextStep(r1, 0).1;
    s2, g2 := Then(r, g, s, r1, g1, AskStep(0), r2, e);
  }

  /** Asker 0 loads head 0. */
  lemma AskFirst(r: Ring, g: Ledger) returns (s: seq<Action>)
    requires Start(r, g)
    ensures Timely(r, g, s) && Waiting(Run(r, g, s).0, Run(r, g, s).1, 0)
  {
    NoSteps(r, g);
    assert Timely(r, g, []);
    hide Run, Timely;
    var r1 := r.(askers := r.askers[0 := AskHead]);
    var g1;
    s, g1 := Then(r, g, [], r, g, AskCall(0), r1, Quiet);
    s, r1, g1 := AskOne(r, g, s, r1, g1);
  }

  /** After that 2^32 - 1 tasks are put and taken, and one more is put. */
  lemma TailLaps(r: Ring, g: Ledger) returns (s: seq<Action>, r2: Ring, g2: Ledger)
    requires Start(r, g)
    ensures Timely(r, g, s) && Run(r, g, s) == (r2, g2)
    ensures r2.askers == map[0 := AskTail(0)] && r2.tail == 0 && r2.next.None? && g2.head == |g2.put| - 1
    ensures g2.askHead == map[0 := 0] && |g2.put| == 0x1_0000_0000
  {
    hide Run, Timely;
    s := AskFirst(r, g);
    s := Turns(r, g, s, 0, 0x1_0000_0000 - 1);
    var (r1, g1) := Run(r, g, s);
    s, r2, g2 := PutOne(r, g, s, r1, g1, 0x1_0000_0000 - 1, 8);
  }

  lemma EmptyAnswered(r: Ring, g: Ledger, s: seq<Action>, r1: Ring, g1: Ledger) returns (s2: seq<Action>)
    requires Timely(r, g, s) && Run(r, g, s) == (r1, g1)
    requires r1.askers == map[0 := AskTail(0)] && r1.tail == 0 && r1.next.None? && g1.head == |g1.put| - 1
    requires g1.askHead == map[0 := 0] && |g1.put| == 0x1_0000_0000
    ensures Timely(r, g, s2)
    ensures var (r2, g2) := Run(r, g, s2);
      && 0 in r2.askers && r2.askers[0] == Answered(true) && 0 in g2.askSaw && !g2.askSaw[0]
      && 0 in g2.askHead && 0 in g2.askTail && Lapped(g2.askHead[0], g2.askTail[0]) && g2.head < |g2.put|
  {
    hide Run, Timely;
    var r2, g2, r3, g3;
    s2, r2, g2 := AskOne(r, g, s, r1, g1);
    assert r2.askers[0] == AskNext(0, 0) && g2.askTail[0] == 0x1_0000_0000;
    s2, r3, g3 := AskOne(r, g, s2, r2, g2);
    assert r3.askers[0] == AskAgain(0, 0, None) && !g3.askSaw[0];
    s2, r2, g2 := AskOne(r, g, s2, r3, g3);
  }

  /**
   Without that condition p_runqempty can say "empty" for the wrong reason: there is a schedule, with no
   thief in it, in which the tail laps the head the test has loaded, and the test answers that the ring is
   empty although it was not empty at any of its later loads.
   */
  lemma EmptyButFull(r: Ring, g: Ledger) returns (s: seq<Action>)
    requires Start(r, g)
    ensures Timely(r, g, s)
    ensures var (r2, g2) := Run(r, g, s);
      && 0 in r2.askers && r2.askers[0] == Answered(true) && 0 in g2.askSaw && !g2.askSaw[0]
      && 0 in g2.askHead && 0 in g2.askTail && Lapped(g2.askHead[0], g2.askTail[0]) && g2.head < |g2.put|
  {
    var r1, g1;
    s, r1, g1 := TailLaps(r, g);
    s := EmptyAnswered(r, g, s, r1, g1);
  }
}

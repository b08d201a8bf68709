/**
 The run queue of one P as the source stores it, with no other thread interfering: two 32-bit counters
 that wrap and 256 slots (src/rt/sched.c p_runqput, p_runqget, p_runqgrab, p_runqsteal). Each operation
 is proved against the sequence of queued tasks; module RunqRuns has the interleavings.
 */
module Ring {
  import opened Base

  /** The slot i positions after the one counter c points to. */
  function At(c: u32, i: int): (k: int)
    ensures 0 <= k < 256
  {
    (c + i) % 256
  }

  /** The queued tasks: as many as the counters are apart, the first in the slot the head points to. */
  function Live(slots: seq<Task>, head: u32, tail: u32): (q: seq<Task>)
    requires |slots| == 256
    ensures |q| == Sub32(tail, head)
  {
    seq(Sub32(tail, head), (i: nat) => slots[At(head, i)])
  }

  /** A counter that wrapped still points to its slot: 256 divides 2^32. */
  lemma WrapKeepsSlot(a: u32, i: nat)
    ensures Add32(a, i) % 256 == At(a, i)
  {
    assert Add32(a, i) == a + i - (a + i) / 0x1_0000_0000 * 0x1_0000_0000;
    assert (a + i) / 0x1_0000_0000 * 0x1_0000_0000 == 256 * ((a + i) / 0x1_0000_0000 * 0x100_0000);
    ModShift(a + i, (a + i) / 0x1_0000_0000 * 0x100_0000);
  }

  lemma ModShift(x: int, k: int)
    ensures (x - 256 * k) % 256 == x % 256
  {
  }

  /** Tasks less than 256 positions apart are in different slots. */
  lemma DistinctSlots(h: u32, i: nat, j: nat)
    requires i < j < i + 256
    ensures At(h, i) != At(h, j)
  {
  }

  lemma Apart(head: u32, tail: u32, m: nat)
    requires Sub32(tail, head) + m <= 256
    ensures Sub32(Add32(tail, m), head) == Sub32(tail, head) + m
  {
  }

  lemma TailOf(head: u32, tail: u32)
    ensures Add32(head, Sub32(tail, head)) == tail
  {
  }

  /** Storing behind the last task and advancing the tail by n appends the n tasks stored, and moves none. */
  lemma LivePut(slots: seq<Task>, slots2: seq<Task>, head: u32, tail: u32, batch: seq<Task>)
    requires |slots| == |slots2| == 256
    requires Sub32(tail, head) + |batch| <= 256
    requires forall i :: 0 <= i < |batch| ==> slots2[At(tail, i)] == batch[i]
    requires forall k :: 0 <= k < 256 && (forall i :: 0 <= i < |batch| ==> k != At(tail, i)) ==> slots2[k] == slots[k]
    ensures Live(slots2, head, Add32(tail, |batch|)) == Live(slots, head, tail) + batch
  {
    var n := Sub32(tail, head);
    TailOf(head, tail);
    Apart(head, tail, |batch|);
    hide Sub32, Add32, At;
    forall i | 0 <= i < n ensures slots2[At(head, i)] == slots[At(head, i)] {
      forall j | 0 <= j < |batch| ensures At(head, i) != At(tail, j) {
        DistinctSlots(head, i, n + j);
        SlotOf(head, n, j);
      }
    }
    forall j | 0 <= j < |batch| ensures slots2[At(head, n + j)] == batch[j] { SlotOf(head, n, j); }
    LiveIs(slots, slots2, head, tail, batch, Add32(tail, |batch|));
  }

  lemma LiveIs(slots: seq<Task>, slots2: seq<Task>, head: u32, tail: u32, batch: seq<Task>, tail2: u32)
    requires |slots| == |slots2| == 256 && Sub32(tail2, head) == Sub32(tail, head) + |batch|
    requires forall i :: 0 <= i < Sub32(tail, head) ==> slots2[At(head, i)] == slots[At(head, i)]
    requires forall j :: 0 <= j < |batch| ==> slots2[At(head, Sub32(tail, head) + j)] == batch[j]
    ensures Live(slots2, head, tail2) == Live(slots, head, tail) + batch
  {
    hide Sub32, At;
    var n, all := Sub32(tail, head), Live(slots, head, tail) + batch;
    forall i | 0 <= i < |all| ensures Live(slots2, head, tail2)[i] == all[i] {
      if i >= n { assert slots2[At(head, n + (i - n))] == batch[i - n]; }
    }
  }

  lemma OneStored(slots: seq<Task>, slots2: seq<Task>, head: u32, tail: u32, t: Task)
    requires |slots| == 256 && Sub32(tail, head) < 256 && slots2 == slots[tail % 256 := t]
    ensures Live(slots2, head, Add32(tail, 1)) == Live(slots, head, tail) + [t]
    ensures Sub32(Add32(tail, 1), head) <= 256
  {
    Apart(head, tail, 1);
    SlotAtZero(tail);
    hide Sub32, Add32, At;
    forall k | 0 <= k < 256 && (forall i :: 0 <= i < |[t]| ==> k != At(tail, i)) ensures slots2[k] == slots[k] {
      assert k != At(tail, 0);
    }
    LivePut(slots, slots2, head, tail, [t]);
  }

  /** Moving the tail back by one drops the last task, also below zero. */
  lemma LiveBack(slots: seq<Task>, head: u32, tail: u32)
    requires |slots| == 256 && 0 < Sub32(tail, head) <= 256
    ensures var tail2, q := Sub32(tail, 1), Live(slots, head, tail);
      && Live(slots, head, tail2) == q[..|q| - 1] && slots[tail2 % 256] == q[|q| - 1]
      && Sub32(tail2, head) == Sub32(tail, head) - 1
  {
    var n := Sub32(tail, head) - 1;
    assert Sub32(Sub32(tail, 1), head) == n;
    TailOf(head, Sub32(tail, 1));
    hide Sub32, Add32;
    SlotOf(head, n, 0);
    SlotAtZero(Add32(head, n));
  }

  lemma SlotOf(head: u32, n: nat, j: nat)
    ensures At(Add32(head, n), j) == At(head, n + j)
  {
    WrapKeepsSlot(head, n);
    WrapKeepsSlot(head, n + j);
    var k := (head + n) / 0x1_0000_0000;
    assert Add32(head, n) == head + n - 256 * (k * 0x100_0000);
    ModShift(head + n + j, k * 0x100_0000);
  }

  /** Advancing the head by n drops the first n tasks. */
  lemma LiveGet(slots: seq<Task>, head: u32, tail: u32, n: nat)
    requires |slots| == 256 && n <= Sub32(tail, head)
    ensures Live(slots, Add32(head, n), tail) == Live(slots, head, tail)[n..]
  {
    assert Sub32(tail, Add32(head, n)) == Sub32(tail, head) - n;
    forall i | 0 <= i < Sub32(tail, head) - n
      ensures slots[At(Add32(head, n), i)] == Live(slots, head, tail)[n + i]
    {
      SlotOf(head, n, i);
    }
  }

  datatype Stolen = Nothing | Took(t: Task) | Overflow

  /** struct P, as far as its run queue goes. */
  class P {
    var runqhead: u32
    var runqtail: u32
    const runq: array<Task>
    var runnext: Option<Task>

    ghost predicate Valid()
      reads this, runq
    {
      runq.Length == 256 && Sub32(runqtail, runqhead) <= 256
    }

    ghost function Queue(): (q: seq<Task>)
      requires Valid()
      reads this, runq
    {
      Live(runq[..], runqhead, runqtail)
    }

    constructor ()
      ensures Valid() && fresh(runq) && Queue() == [] && runnext.None?
    {
      runq := new Task[256](_ => 0);
      runqhead, runqtail, runnext := 0, 0, None;
    }

    /**
     p_runqput, one turn of its loop. With no room the task to go to the ring stays in hand, and the source
     goes on trying, as p_runqputslow is a stub.
     */
    method Put(t: Task, next: bool) returns (waiting: Option<Task>)
      requires Valid()
      modifies this, runq
      ensures Valid() && runnext == if next then Some(t) else old(runnext)
      ensures var tp := if next then old(runnext) else Some(t);
        if tp.Some? && |old(Queue())| < 256 then waiting.None? && Queue() == old(Queue()) + [tp.value]
        else waiting == tp && Queue() == old(Queue())
    {
      var tp := t;
      if next {
        var oldnext := runnext;
        runnext := Some(t);
        if oldnext.None? { return None; }
        tp := oldnext.value;
      }
      var head := runqhead;
      var tail := runqtail;
      if Sub32(tail, head) >= 256 { return Some(tp); }
      runq[tail % 256] := tp;
      runqtail := Add32(tail, 1);
      OneStored(old(runq[..]), runq[..], head, tail, tp);
      return None;
    }

    /** p_runqget: runnext first, then the ring in the order of the puts. */
    method Get() returns (t: Option<Task>, inheritTime: bool)
      requires Valid()
      modifies this
      ensures Valid() && runnext.None?
      ensures inheritTime == old(runnext).Some?
      ensures inheritTime ==> t == old(runnext) && Queue() == old(Queue())
      ensures !inheritTime && old(Queue()) == [] ==> t.None? && Queue() == []
      ensures !inheritTime && old(Queue()) != [] ==> t == Some(old(Queue())[0]) && Queue() == old(Queue())[1..]
    {
      if runnext.Some? {
        t := runnext;
        runnext := None;
        return t, true;
      }
      var head := runqhead;
      var tail := runqtail;
      if tail == head { return None, false; }
      t := Some(runq[head % 256]);
      LiveGet(runq[..], head, tail, 1);
      runqhead := Add32(head, 1);
      return t, false;
    }

    /** The last task of the ring, as s_procresize takes it off with nobody else about. */
    method PopTail() returns (t: Task)
      requires Valid() && Queue() != []
      modifies this
      ensures Valid() && runnext == old(runnext)
      ensures t == old(Queue())[|old(Queue())| - 1] && Queue() == old(Queue())[..|old(Queue())| - 1]
    {
      LiveBack(runq[..], runqhead, runqtail);
      runqtail := Sub32(runqtail, 1);
      t := runq[runqtail % 256];
    }

    /**
     p_runqgrab: half of this ring, rounded up, copied behind batchHead of another ring; or else runnext.
     What it reads as a torn pair of counters cannot be seen without interference.
     */
    method Grab(batch: array<Task>, batchHead: u32, stealNext: bool) returns (n: u32)
      requires Valid() && batch.Length == 256 && batch != runq
      modifies this, batch
      ensures Valid()
      ensures var q := old(Queue());
        if q != [] then
          && n == Share(|q|) && Queue() == q[n..] && runnext == old(runnext)
          && forall i :: 0 <= i < n ==> batch[At(batchHead, i)] == q[i]
        else if stealNext && old(runnext).Some? then
          n == 1 && Queue() == [] && runnext.None? && batch[batchHead % 256] == old(runnext).value
        else
          n == 0 && Queue() == [] && runnext == old(runnext)
      ensures n <= 128
      ensures forall k :: 0 <= k < 256 && (forall i :: 0 <= i < n ==> k != At(batchHead, i)) ==>
        batch[k] == old(batch[k])
    {
      var h := runqhead;
      n := Sub32(runqtail, h);
      n := n - n / 2;
      if n == 0 {
        if stealNext && runnext.Some? {
          assert batchHead % 256 == At(batchHead, 0);
          batch[batchHead % 256] := runnext.value;
          runnext := None;
          return 1;
        }
        return 0;
      }
      var i := 0;
      while i < n
        invariant 0 <= i <= n <= 128
        invariant runqhead == h && runqtail == old(runqtail) && runq[..] == old(runq[..]) && runnext == old(runnext)
        invariant forall j :: 0 <= j < i ==> batch[At(batchHead, j)] == old(Queue())[j]
        invariant forall k :: 0 <= k < 256 && (forall j :: 0 <= j < i ==> k != At(batchHead, j)) ==>
          batch[k] == old(batch[k])
      {
        WrapKeepsSlot(h, i);
        WrapKeepsSlot(batchHead, i);
        forall j | 0 <= j < i ensures At(batchHead, j) != At(batchHead, i) { DistinctSlots(batchHead, j, i); }
        batch[Add32(batchHead, i) % 256] := runq[Add32(h, i) % 256];
        i := i + 1;
      }
      LiveGet(runq[..], h, runqtail, n);
      runqhead := Add32(h, n);
    }

    /**
     p_runqsteal from P p2. If the batch fits, the thief keeps its tasks, gains all but the last of the
     batch in their order and returns the last; otherwise it overflows, except that a batch of one is
     never checked and in a full ring overwrites the front task.
     */
    method Steal(p2: P, stealNext: bool) returns (r: Stolen)
      requires Valid() && p2.Valid() && p2 != this && p2.runq != runq
      modifies this`runqtail, runq, p2
      ensures Valid() && p2.Valid()
      ensures var q, v := old(Queue()), old(p2.Queue());
        var n := Share(|v|);
        if v != [] then
          && p2.Queue() == v[n..] && p2.runnext == old(p2.runnext)
          && (|q| + n <= 256 ==> r == Took(v[n - 1]) && Queue() == q + v[..n - 1])
          && (|q| + n > 256 && n > 1 ==> r == Overflow)
          && (|q| + n > 256 && n == 1 ==> r == Took(v[0]) && Queue() == [v[0]] + q[1..])
        else if stealNext && old(p2.runnext).Some? then
          && p2.Queue() == [] && p2.runnext.None? && r == Took(old(p2.runnext).value)
          && (|q| < 256 ==> Queue() == q)
        else
          r == Nothing && Queue() == q && p2.Queue() == v && p2.runnext == old(p2.runnext)
    {
      hide Live, At, Share;
      var tail := runqtail;
      var n := p2.Grab(runq, tail, stealNext);
      if n == 0 {
        assert runq[..] == old(runq[..]);
        return Nothing;
      }
      var m := n - 1;
      WrapKeepsSlot(tail, m);
      var t := runq[Add32(tail, m) % 256];
      if m == 0 {
        assert At(tail, 0) == tail % 256 by { SlotAtZero(tail); }
        OneCopied(old(runq[..]), runq[..], runqhead, tail, t);
        return Took(t);
      }
      var h := runqhead;
      if Add32(Sub32(tail, h), m) >= 256 {
        return Overflow;
      }
      runqtail := Add32(tail, m);
      ghost var v := old(p2.Queue());
      Prefix(old(runq[..]), runq[..], h, tail, v[..n]);
      return Took(t);
    }
  }

  lemma SlotAtZero(c: u32)
    ensures At(c, 0) == c % 256
  {
  }

  /** A slot written but not published: harmless unless the ring was full. */
  lemma OneCopied(slots: seq<Task>, slots2: seq<Task>, head: u32, tail: u32, t: Task)
    requires |slots| == |slots2| == 256 && Sub32(tail, head) <= 256
    requires slots2[tail % 256] == t && forall k :: 0 <= k < 256 && k != tail % 256 ==> slots2[k] == slots[k]
    ensures Sub32(tail, head) < 256 ==> Live(slots2, head, tail) == Live(slots, head, tail)
    ensures Sub32(tail, head) == 256 ==> Live(slots2, head, tail) == [t] + Live(slots, head, tail)[1..]
  {
    var n := Sub32(tail, head);
    TailOf(head, tail);
    SlotAtZero(tail);
    SlotAtZero(head);
    SlotOf(head, n, 0);
    if n == 256 { FullCircle(head); }
    hide Sub32, Add32, At;
    forall i | 0 <= i < n && (n < 256 || i > 0) ensures slots2[At(head, i)] == slots[At(head, i)] {
      DistinctSlots(head, i, n);
    }
  }

  lemma FullCircle(head: u32)
    ensures At(head, 256) == At(head, 0)
  {
  }

  /** A batch of n copied and n - 1 of it published. */
  lemma Prefix(slots: seq<Task>, slots2: seq<Task>, head: u32, tail: u32, batch: seq<Task>)
    requires |slots| == |slots2| == 256
    requires |batch| > 0 && Sub32(tail, head) + |batch| <= 256
    requires forall i :: 0 <= i < |batch| ==> slots2[At(tail, i)] == batch[i]
    requires forall k :: 0 <= k < 256 && (forall i :: 0 <= i < |batch| ==> k != At(tail, i)) ==> slots2[k] == slots[k]
    ensures Live(slots2, head, Add32(tail, |batch| - 1)) == Live(slots, head, tail) + batch[..|batch| - 1]
  {
    var m := |batch| - 1;
    LivePut(slots, slots2, head, tail, batch);
    Apart(head, tail, m);
    Apart(head, tail, m + 1);
    hide Sub32, Add32, At;
    var all := Live(slots2, head, Add32(tail, |batch|));
    assert Live(slots2, head, Add32(tail, m)) == all[..|all| - 1];
  }
}

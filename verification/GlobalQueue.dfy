/**
 The global run queue: taking a batch from it into an empty ring (src/rt/sched.c s_runqget), the choice
 schedule makes between it and the ring, and how long it can be passed over.
 */
module GlobalQueue {
  import opened Base
  import Ring

  /** How many tasks s_runqget takes: a share of the queue, at most max (0 for no limit) and half a ring. */
  function Batch(runqsize: nat, maxprocs: nat, max: nat): (n: nat)
    requires maxprocs > 0
    ensures n <= runqsize && n <= 128
    ensures runqsize > 0 ==> n > 0
    ensures max > 0 ==> n <= max
  {
    var n := if runqsize < runqsize / maxprocs + 1 then runqsize else runqsize / maxprocs + 1;
    var n := if max > 0 && n > max then max else n;
    if n > 128 then 128 else n
  }

  /** k tasks are one more than a P's share of the queue at most, and no more than asked for or than half a ring. */
  predicate Fits(runqsize: nat, maxprocs: nat, max: nat, k: nat) {
    k <= runqsize && (k - 1) * maxprocs <= runqsize && (max > 0 ==> k <= max) && k <= 128
  }

  /** The batch is as large as it may be. */
  lemma BatchLargest(runqsize: nat, maxprocs: nat, max: nat, k: nat)
    requires maxprocs > 0
    ensures Fits(runqsize, maxprocs, max, k) <==> k <= Batch(runqsize, maxprocs, max)
  {
    ShareBound(runqsize, maxprocs, k - 1);
  }

  lemma ShareBound(x: nat, d: nat, k: int)
    requires d > 0
    ensures k * d <= x <==> k <= x / d
  {
    var q, r := x / d, x % d;
    assert x == q * d + r;
    AtLeastOne(k - q, d);
    AtLeastOne(q - k, d);
    assert k * d == q * d + (k - q) * d;
  }

  /** The 32-bit sum in Batch wraps in one case only: a single P and 2^32 - 1 waiting tasks. */
  lemma BatchSum(runqsize: u32, maxprocs: u32)
    requires maxprocs > 0
    ensures Add32(runqsize / maxprocs, 1) == runqsize / maxprocs + 1 <==> !(runqsize == 0xffff_ffff && maxprocs == 1)
  {
    if maxprocs > 1 { HalfAtMost(runqsize, maxprocs); }
  }

  /**
   How many tasks the loop of s_runqget takes, in 32 bits: where the sum wraps it would count down from 2^32
   and so take them all.
   */
  function Batch32(runqsize: u32, maxprocs: u32, max: u32): nat
    requires maxprocs > 0
  {
    if Add32(runqsize / maxprocs, 1) == 0 then runqsize else Batch(runqsize, maxprocs, max)
  }

  lemma HalfAtMost(x: nat, d: nat)
    requires d >= 2
    ensures 2 * (x / d) <= x
  {
    var q := x / d;
    assert x == q * d + x % d;
    assert q * d >= q * 2;
  }

  /** The part of struct S that s_runqget works on. */
  class S {
    var runq: seq<Task>
    var runqsize: u32
    var maxprocs: u32

    ghost predicate Valid()
      reads this
    {
      runqsize == |runq| && maxprocs > 0
    }

    constructor (procs: u32)
      requires procs > 0
      ensures Valid() && runq == [] && maxprocs == procs
    {
      runq, runqsize, maxprocs := [], 0, procs;
    }

    /** s_runqputhead */
    method PutHead(t: Task)
      requires Valid() && runqsize < 0xffff_ffff
      modifies this
      ensures Valid() && runq == [t] + old(runq) && maxprocs == old(maxprocs)
    {
      runq := [t] + runq;
      runqsize := runqsize + 1;
    }

    /**
     s_runqget. The ring must have room for all of the batch but its first task, or the put would wait
     for ever; an empty ring always has.
     */
    method RunqGet(p: Ring.P, max: u32) returns (tp: Option<Task>)
      requires Valid() && p.Valid()
      requires |p.Queue()| + Batch32(runqsize, maxprocs, max) <= 257
      modifies this, p, p.runq
      ensures Valid() && p.Valid() && maxprocs == old(maxprocs) && p.runnext == old(p.runnext)
      ensures var g, n := old(runq), Batch(old(runqsize), old(maxprocs), max);
        && runq == g[n..]
        && (g == [] ==> tp.None? && p.Queue() == old(p.Queue()))
        && (g != [] ==> n > 0 && tp == Some(g[0]) && p.Queue() == old(p.Queue()) + g[1..n])
    {
      if runqsize == 0 { return None; }
      BatchSum(runqsize, maxprocs);
      var n := Add32(runqsize / maxprocs, 1);
      if runqsize < n { n := runqsize; }
      if max > 0 && n > max { n := max; }
      if n > 128 { n := 128; }
      assert n == Batch(runqsize, maxprocs, max);
      hide Batch, Add32;
      ghost var g := runq;
      runqsize := runqsize - n;
      tp := Some(runq[0]);
      runq := runq[1..];
      MoveRest(p, n - 1);
      assert g[1..][..n - 1] == g[1..n] && g[1..][n - 1..] == g[n..];
    }

    /** The rest of the batch goes to the end of the ring, which has room for it. */
    method MoveRest(p: Ring.P, count: nat)
      requires p.Valid() && count <= |runq| && |p.Queue()| + count <= 256
      modifies this`runq, p, p.runq
      ensures p.Valid() && p.runnext == old(p.runnext)
      ensures runq == old(runq)[count..] && p.Queue() == old(p.Queue()) + old(runq)[..count]
    {
      ghost var g, q, k := runq, p.Queue(), 0;
      var n := count;
      while n > 0
        invariant p.Valid() && p.runnext == old(p.runnext) && k + n == count <= |g|
        invariant runq == g[k..] && p.Queue() == q + g[..k]
      {
        var t := runq[0];
        runq := runq[1..];
        var waiting := p.Put(t, false);
        assert waiting.None? && g[..k + 1] == g[..k] + [g[k]];
        n, k := n - 1, k + 1;
      }
    }

    /**
     schedule, as far as the choice of a queue goes: every 61st time slice the global queue comes first,
     otherwise runnext and the ring do. None means s_findrunnable has to look further.
     */
    method Pick(p: Ring.P, schedtick: u32) returns (t: Option<Task>, inheritTime: bool, ghost fromGlobal: bool)
      requires Valid() && p.Valid()
      requires GlobalFirst(schedtick, |runq|) ==> |p.Queue()| + Batch32(runqsize, maxprocs, 1) <= 257
      modifies this, p, p.runq
      ensures Valid() && p.Valid()
      ensures fromGlobal <==> GlobalFirst(schedtick, |old(runq)|)
      ensures fromGlobal ==> t == Some(old(runq)[0]) && runq == old(runq)[1..] && !inheritTime
                             && p.Queue() == old(p.Queue()) && p.runnext == old(p.runnext)
      ensures !fromGlobal ==> runq == old(runq) && p.runnext.None?
      ensures !fromGlobal && old(p.runnext).Some? ==> t == old(p.runnext) && inheritTime && p.Queue() == old(p.Queue())
      ensures !fromGlobal && old(p.runnext).None? && old(p.Queue()) != [] ==>
        t == Some(old(p.Queue())[0]) && !inheritTime && p.Queue() == old(p.Queue())[1..]
      ensures !fromGlobal && old(p.runnext).None? && old(p.Queue()) == [] ==> t.None? && !inheritTime && p.Queue() == []
    {
      t, inheritTime, fromGlobal := None, false, false;
      if schedtick % 61 == 0 && runqsize > 0 {
        fromGlobal := true;
        t := RunqGet(p, 1);
        assert p.Queue() == old(p.Queue());
      }
      if t.None? {
        t, inheritTime := p.Get();
      }
    }
  }

  // ---------- fairness

  /** The test schedule makes. */
  predicate GlobalFirst(schedtick: u32, waiting: nat) {
    schedtick % 61 == 0 && waiting > 0
  }

  /** How many more time slices until the tick is a multiple of 61: a wrap of the counter only shortens it. */
  function SlicesLeft(tick: u32): (d: nat)
    ensures d <= 60 && Add32(tick, d) % 61 == 0
  {
    if tick % 61 == 0 then 0
    else if tick + (61 - tick % 61) < 0x1_0000_0000 then 61 - tick % 61
    else 0x1_0000_0000 - tick
  }
}

/**
 The cache of dead tasks of a P and its exchange with the global list
 (src/rt/sched.c p_tfree_get, p_tfree_put, p_tfree_purge).
 */
module FreeTasks {
  import opened Base
  import FreeRuns
  import opened TaskLists

  /** S.tfree */
  class Global {
    const l: TList
    var n: nat

    ghost predicate Valid()
      reads this, l, l.tasks
    {
      l.Valid() && n == |l.tasks|
    }

    constructor ()
      ensures Valid() && fresh(l) && l.tasks == []
    {
      l := new TList();
      n := 0;
    }

    /** A queue of k dead tasks goes in front of the list. */
    method Receive(q: TQueue, k: nat)
      requires Valid() && q.Valid() && k == |q.tasks| && Disjoint(l.tasks, q.tasks)
      modifies this, l, q.tasks
      ensures Valid() && l.tasks == old(q.tasks) + old(l.tasks)
    {
      hide ChainTo;
      l.PushAll(q);
      n := n + k;
    }
  }

  class P {
    const tfree: TList
    var tfreecount: nat

    ghost predicate Valid()
      reads this, tfree, tfree.tasks
    {
      tfree.Valid() && tfreecount == |tfree.tasks|
    }

    constructor ()
      ensures Valid() && fresh(tfree) && tfree.tasks == []
    {
      tfree := new TList();
      tfreecount := 0;
    }

    /** The (k+1)-st task of what was the global list g becomes the first task here. */
    method TakeOne(s: Global, ghost g: seq<T>, ghost k: nat)
      requires Valid() && s.Valid() && s.l != tfree && Disjoint(tfree.tasks, s.l.tasks) && k < |g|
      requires tfree.tasks == Reversed(g[..k]) && s.l.tasks == g[k..]
      modifies this, tfree, s, s.l, {g[k]}
      ensures Valid() && s.Valid() && Disjoint(tfree.tasks, s.l.tasks)
      ensures tfree.tasks == Reversed(g[..k + 1]) && s.l.tasks == g[k + 1..]
      ensures s.l.head == null <==> k + 1 == |g|
    {
      hide ChainTo;
      s.l.Distinct();
      TurnOver(g, k);
      ShiftTo(s.l, tfree);
      s.n := s.n - 1;
      tfreecount := tfreecount + 1;
      s.l.NullIsEmpty();
    }

    /** Move up to 32 tasks from the global list, which is not empty, to this empty one. */
    method Refill(s: Global)
      requires Valid() && s.Valid() && s.l != tfree && tfree.tasks == []
      modifies this, tfree, s, s.l, s.l.tasks
      ensures Valid() && s.Valid() && Disjoint(tfree.tasks, s.l.tasks)
      ensures var g := old(s.l.tasks);
        var k := if |g| < 32 then |g| else 32;
        tfree.tasks == Reversed(g[..k]) && s.l.tasks == g[k..]
    {
      hide ChainTo;
      ghost var g := s.l.tasks;
      ghost var k := 0;
      assert Reversed(g[..0]) == [];
      s.l.NullIsEmpty();
      while tfreecount < 32 && s.l.head != null
        invariant Valid() && s.Valid() && Disjoint(tfree.tasks, s.l.tasks) && k == tfreecount <= 32 && k <= |g|
        invariant tfree.tasks == Reversed(g[..k]) && s.l.tasks == g[k..]
        invariant s.l.head == null <==> k == |g|
        decreases 32 - tfreecount
      {
        TakeOne(s, g, k);
        k := k + 1;
      }
    }

    /** The first task here, if any. */
    method TakeFirst() returns (t: T?)
      requires Valid()
      modifies this, tfree
      ensures Valid()
      ensures old(tfree.tasks) == [] ==> t == null && tfree.tasks == []
      ensures old(tfree.tasks) != [] ==> t == old(tfree.tasks)[0] && tfree.tasks == old(tfree.tasks)[1..]
    {
      t := tfree.Pop();
      if t != null { tfreecount := tfreecount - 1; }
    }

    /** p_tfree_get */
    method Get(s: Global) returns (t: T?)
      requires Valid() && s.Valid() && s.l != tfree && Disjoint(tfree.tasks, s.l.tasks)
      modifies this, tfree, s, s.l, s.l.tasks
      ensures Valid() && s.Valid() && Disjoint(tfree.tasks, s.l.tasks)
      ensures var (own, g, got) := FreeRuns.Got(old(tfree.tasks), old(s.l.tasks));
        tfree.tasks == own && s.l.tasks == g && t == if got.Some? then got.value else null
    {
      hide ChainTo;
      ghost var k := if tfree.tasks != [] then 0 else if |s.l.tasks| < 32 then |s.l.tasks| else 32;
      ghost var own := if tfree.tasks != [] then tfree.tasks else Reversed(s.l.tasks[..k]);
      ghost var rest := s.l.tasks[k..];
      s.l.Distinct();
      if tfree.tasks == [] { HalvesApart(s.l.tasks, k); }
      ghost var refilled := false;
      while true
        invariant Valid() && s.Valid() && Disjoint(own, rest)
        invariant refilled || own == tfree.tasks || s.l.tasks != []
        invariant !refilled ==> tfree.tasks == old(tfree.tasks) && s.l.tasks == old(s.l.tasks)
        invariant refilled ==> tfree.tasks == own != [] && s.l.tasks == rest
        decreases tfree.head == null && s.l.head != null
      {
        tfree.NullIsEmpty();
        s.l.NullIsEmpty();
        if tfree.head == null && s.l.head != null {
          Refill(s);
          tfree.NullIsEmpty();
          refilled := true;
          continue;
        }
        assert tfree.tasks == own && s.l.tasks == rest;
        if |own| > 0 { TailApart(own, rest); }
        t := TakeFirst();
        return;
      }
    }

    /** The first task here becomes the head of q. */
    method DropOne(q: TQueue)
      requires Valid() && q.Valid() && tfree.tasks != [] && tfree.tasks[0] !in q.tasks
      modifies this, tfree, q, {tfree.tasks[0]}
      ensures Valid() && q.Valid()
      ensures tfree.tasks == old(tfree.tasks)[1..] && q.tasks == [old(tfree.tasks)[0]] + old(q.tasks)
    {
      hide ChainTo;
      Shift(tfree, q);
      tfreecount := tfreecount - 1;
    }

    /** The loop p_tfree_put and p_tfree_purge share: pop down to `keep` tasks, pushing each onto a queue. */
    method Drain(keep: nat) returns (q: TQueue, n: nat)
      requires Valid()
      modifies this, tfree, tfree.tasks
      ensures Valid() && fresh(q) && q.Valid()
      ensures var own := old(tfree.tasks);
        && n == (if |own| < keep then 0 else |own| - keep)
        && q.tasks == Reversed(own[..n]) && tfree.tasks == own[n..]
    {
      hide ChainTo;
      ghost var own := tfree.tasks;
      n := 0;
      tfree.Distinct();
      q := new TQueue();
      assert Reversed(own[..0]) == [];
      while tfreecount > keep
        invariant Valid() && q.Valid() && fresh(q) && n <= |own|
        invariant q.tasks == Reversed(own[..n]) && tfree.tasks == own[n..]
        invariant n > 0 ==> tfreecount >= keep
        decreases tfreecount
      {
        ReverseStep(own, n);
        DropOne(q);
        n := n + 1;
      }
    }

    /** A queue of tasks that are not here goes to the global list, and nothing changes here. */
    method HandOver(s: Global, q: TQueue, n: nat)
      requires Valid() && s.Valid() && q.Valid() && n == |q.tasks| && s.l != tfree
      requires Disjoint(s.l.tasks, q.tasks) && Disjoint(tfree.tasks, q.tasks)
      modifies s, s.l, q.tasks
      ensures Valid() && s.Valid() && s.l.tasks == old(q.tasks) + old(s.l.tasks)
      ensures tfree.tasks == old(tfree.tasks) && tfreecount == old(tfreecount)
    {
      hide ChainTo;
      s.Receive(q, n);
      StaysValid(tfree);
    }

    /** All but `keep` of the tasks here go to the global list, the ones at the head first. */
    method Give(s: Global, keep: nat) returns (n: nat)
      requires Valid() && s.Valid() && s.l != tfree && Disjoint(tfree.tasks, s.l.tasks)
      modifies this, tfree, tfree.tasks, s, s.l
      ensures Valid() && s.Valid() && Disjoint(tfree.tasks, s.l.tasks)
      ensures n == (if |old(tfree.tasks)| < keep then 0 else |old(tfree.tasks)| - keep)
      ensures tfree.tasks == old(tfree.tasks)[n..] && s.l.tasks == Reversed(old(tfree.tasks)[..n]) + old(s.l.tasks)
    {
      hide ChainTo;
      ghost var own, g := tfree.tasks, s.l.tasks;
      tfree.Distinct();
      var q;
      q, n := Drain(keep);
      GiveApart(own, n, g);
      StaysValid(s.l);
      assert forall o: object :: o in q.tasks ==> o in own;
      ghost var rest, moved := tfree.tasks, q.tasks;
      HandOver(s, q, n);
      assert tfree.tasks == rest && s.l.tasks == moved + g && Disjoint(rest, moved + g);
    }

    /** p_tfree_put. A task whose stack does not have the default size is freed instead. */
    method Put(s: Global, t: T, standardStack: bool)
      requires Valid() && s.Valid() && s.l != tfree && Disjoint(tfree.tasks, s.l.tasks)
      requires t !in tfree.tasks && t !in s.l.tasks
      modifies this, tfree, tfree.tasks, t, s, s.l
      ensures Valid() && s.Valid() && Disjoint(tfree.tasks, s.l.tasks)
      ensures !standardStack ==> tfree.tasks == old(tfree.tasks) && s.l.tasks == old(s.l.tasks)
      ensures |old(tfree.tasks)| <= 63 ==> tfreecount <= 63
      ensures standardStack ==> (tfree.tasks, s.l.tasks) == FreeRuns.Put(old(tfree.tasks), old(s.l.tasks), t)
    {
      hide ChainTo;
      if !standardStack { return; }
      hide FreeRuns.Put;
      ghost var all, g := [t] + tfree.tasks, s.l.tasks;
      FreeRuns.PutIs(tfree.tasks, g, t, all, if |all| < 64 then 0 else |all| - 31);
      tfree.Push(t);
      StaysValid(s.l);
      tfreecount := tfreecount + 1;
      assert tfree.tasks == all && Disjoint(all, g);
      if tfreecount >= 64 {
        var n := Give(s, 31);
        assert tfree.tasks == all[n..] && s.l.tasks == Reversed(all[..n]) + g;
      }
    }

    /** p_tfree_purge */
    method Purge(s: Global)
      requires Valid() && s.Valid() && s.l != tfree && Disjoint(tfree.tasks, s.l.tasks)
      modifies this, tfree, tfree.tasks, s, s.l
      ensures Valid() && s.Valid() && Disjoint(tfree.tasks, s.l.tasks)
      ensures tfreecount == 0 && (tfree.tasks, s.l.tasks) == FreeRuns.Purged(old(tfree.tasks), old(s.l.tasks))
    {
      ghost var own := tfree.tasks;
      var n := Give(s, 0);
      assert own[..|own|] == own;
    }
  }

  /** A list of which nobody has touched the links or the head is as valid as it was. */
  twostate lemma StaysValid(l: TList)
    requires old(l.Valid()) && l.head == old(l.head) && l.tasks == old(l.tasks)
    requires forall t :: t in l.tasks ==> t.schedlink == old(t.schedlink)
    ensures l.Valid()
  {
  }

  lemma GiveApart(own: seq<T>, n: nat, g: seq<T>)
    requires NoDup(own) && Disjoint(own, g) && n <= |own|
    ensures Disjoint(g, Reversed(own[..n])) && Disjoint(own[n..], Reversed(own[..n]))
    ensures Disjoint(own[n..], Reversed(own[..n]) + g)
    ensures forall t :: t in Reversed(own[..n]) ==> t in own
  {
    HalvesApart(own, n);
    Mirrored(own[..n]);
    assert forall t :: t in own[..n] ==> t in own;
  }

  lemma Mirrored(a: seq<T>)
    ensures forall t :: t in Reversed(a) <==> t in a
  {
    forall t | t in a ensures t in Reversed(a) {
      var i :| 0 <= i < |a| && a[i] == t;
      assert Reversed(a)[|a| - 1 - i] == t;
    }
  }

  lemma TailApart(a: seq<T>, b: seq<T>)
    requires Disjoint(a, b) && |a| > 0
    ensures Disjoint(a[1..], b)
  {
  }

  /** Two parts of a list share no task. */
  lemma HalvesApart(g: seq<T>, k: nat)
    requires NoDup(g) && k <= |g|
    ensures Disjoint(Reversed(g[..k]), g[k..])
    ensures k > 0 ==> Disjoint(Reversed(g[..k])[1..], g[k..]) && Reversed(g[..k])[1..] == Reversed(g[..k - 1])
                      && Reversed(g[..k])[0] == g[k - 1]
  {
    forall t | t in Reversed(g[..k]) ensures t !in g[k..] {
      var i :| 0 <= i < k && Reversed(g[..k])[i] == t;
      assert t == g[k - 1 - i];
    }
    if k > 0 { assert Reversed(g[..k])[1..] == Reversed(g[..k - 1]); }
  }
}

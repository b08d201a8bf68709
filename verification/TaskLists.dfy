/** TQueue and TList of src/rt/sched.c: Ts linked through schedlink, updated in place. */
module TaskLists {
  import opened Base

  class T {
    var schedlink: T?
    constructor () { schedlink := null; }
  }

  ghost function First(ts: seq<T>): T? {
    if |ts| == 0 then null else ts[0]
  }

  ghost function Last(ts: seq<T>): T? {
    if |ts| == 0 then null else ts[|ts| - 1]
  }

  ghost function Next(ts: seq<T>, i: nat, end: T?): T? {
    if i + 1 < |ts| then ts[i + 1] else end
  }

  /** Each T links to the next and the last to end: no cycle. */
  ghost predicate ChainTo(ts: seq<T>, end: T?)
    reads ts
  {
    && NoDup(ts)
    && forall i :: 0 <= i < |ts| ==> ts[i].schedlink == Next(ts, i, end)
  }

  ghost predicate Chain(ts: seq<T>)
    reads ts
  {
    ChainTo(ts, null)
  }

  ghost predicate Disjoint(a: seq<T>, b: seq<T>) {
    forall t :: t in a ==> t !in b
  }

  lemma Join(a: seq<T>, b: seq<T>)
    requires ChainTo(a, First(b)) && Chain(b) && Disjoint(a, b)
    ensures Chain(a + b)
    ensures First(a + b) == if |a| > 0 then First(a) else First(b)
    ensures Last(a + b) == if |b| > 0 then Last(b) else Last(a)
  {
    var c := a + b;
    forall i, j | 0 <= i < j < |c| ensures c[i] != c[j] {
      if i < |a| <= j { assert a[i] in a && b[j - |a|] in b; }
    }
    forall i | 0 <= i < |c| ensures c[i].schedlink == Next(c, i, null) {
      if i < |a| {
        assert c[i] == a[i];
        assert a[i].schedlink == Next(a, i, First(b));
        if i + 1 < |a| { assert c[i + 1] == a[i + 1]; } else if |b| > 0 { assert c[i + 1] == b[0]; }
      } else {
        var k := i - |a|;
        assert c[i] == b[k];
        assert b[k].schedlink == Next(b, k, null);
        if k + 1 < |b| { assert c[i + 1] == b[k + 1]; }
      }
    }
  }

  lemma Cons(t: T, ts: seq<T>)
    requires Chain(ts) && t !in ts && t.schedlink == First(ts)
    ensures Chain([t] + ts) && First([t] + ts) == t && Last([t] + ts) == if |ts| > 0 then Last(ts) else t
  {
    Join([t], ts);
  }

  lemma Uncons(ts: seq<T>)
    requires Chain(ts) && |ts| > 0
    ensures Chain(ts[1..]) && First(ts[1..]) == ts[0].schedlink
    ensures Last(ts[1..]) == if |ts| > 1 then Last(ts) else null
  {
    assert ts[0].schedlink == Next(ts, 0, null);
    forall i | 0 <= i < |ts| - 1 ensures ts[1..][i].schedlink == Next(ts[1..], i, null) {
      assert ts[1..][i] == ts[i + 1];
    }
  }

  lemma TurnOver(ts: seq<T>, n: nat)
    requires n < |ts|
    ensures Reversed(ts[..n + 1]) == [ts[n]] + Reversed(ts[..n])
    ensures ts[n..][0] == ts[n] && ts[n..][1..] == ts[n + 1..]
  {
  }

  /** One more task popped off ts and pushed onto the reversal of those before it. */
  lemma ReverseStep(ts: seq<T>, n: nat)
    requires NoDup(ts) && n < |ts|
    ensures Reversed(ts[..n + 1]) == [ts[n]] + Reversed(ts[..n])
    ensures ts[n] !in Reversed(ts[..n]) && ts[n] !in ts[n + 1..]
    ensures ts[n..][0] == ts[n] && ts[n..][1..] == ts[n + 1..]
  {
    forall i | 0 <= i < n ensures Reversed(ts[..n])[i] != ts[n] {
      assert Reversed(ts[..n])[i] == ts[n - 1 - i];
    }
  }

  class TList {
    var head: T?
    ghost var tasks: seq<T>

    ghost predicate Valid()
      reads this, tasks
    {
      Chain(tasks) && head == First(tasks)
    }

    constructor ()
      ensures Valid() && tasks == []
    {
      head, tasks := null, [];
    }

    lemma Distinct()
      requires Valid()
      ensures NoDup(tasks)
    {
    }

    lemma NullIsEmpty()
      requires Valid()
      ensures head == null <==> tasks == []
    {
    }

    /** TListPush */
    method Push(t: T)
      requires Valid() && t !in tasks
      modifies this, t`schedlink
      ensures Valid() && tasks == [t] + old(tasks)
    {
      t.schedlink := head;
      head := t;
      Cons(t, tasks);
      tasks := [t] + tasks;
    }

    /** TListPop */
    method Pop() returns (t: T?)
      requires Valid()
      modifies this
      ensures Valid()
      ensures old(tasks) == [] ==> t == null && tasks == []
      ensures old(tasks) != [] ==> t == old(tasks)[0] && tasks == old(tasks)[1..]
    {
      t := head;
      if t != null {
        head := t.schedlink;
        Uncons(tasks);
        tasks := tasks[1..];
      }
    }

    /** TListPushAll: all of q in front of this list. q must not be used afterwards. */
    method PushAll(q: TQueue)
      requires Valid() && q.Valid() && Disjoint(tasks, q.tasks)
      modifies this, q.tasks
      ensures Valid() && tasks == old(q.tasks) + old(tasks)
    {
      if !q.Empty() {
        assert q.tail in q.tasks;
        q.tail.schedlink := head;
        head := q.head;
        Join(q.tasks, tasks);
        tasks := q.tasks + tasks;
      }
    }
  }

  class TQueue {
    var head: T?
    var tail: T?
    ghost var tasks: seq<T>

    ghost predicate Valid()
      reads this, tasks
    {
      Chain(tasks) && head == First(tasks) && tail == Last(tasks)
    }

    constructor ()
      ensures Valid() && tasks == []
    {
      head, tail, tasks := null, null, [];
    }

    /** TQueueEmpty */
    predicate Empty()
      requires Valid()
      reads this, tasks
      ensures Empty() <==> tasks == []
    {
      head == null
    }

    /** TQueuePush, at the head. */
    method Push(t: T)
      requires Valid() && t !in tasks
      modifies this, t`schedlink
      ensures Valid() && tasks == [t] + old(tasks)
    {
      t.schedlink := head;
      head := t;
      if tail == null { tail := t; }
      Cons(t, tasks);
      tasks := [t] + tasks;
    }

    /** TQueuePushBack */
    method PushBack(t: T)
      requires Valid() && t !in tasks
      modifies this, t`schedlink, tasks
      ensures Valid() && tasks == old(tasks) + [t]
    {
      t.schedlink := null;
      if tail != null { tail.schedlink := t; } else { head := t; }
      tail := t;
      Join(tasks, [t]);
      tasks := tasks + [t];
    }

    /** TQueuePushBackAll: q2 must not be used afterwards. */
    method PushBackAll(q2: TQueue)
      requires Valid() && q2.Valid() && q2 != this && Disjoint(tasks, q2.tasks)
      modifies this, tasks, q2.tasks
      ensures Valid() && tasks == old(tasks) + old(q2.tasks)
    {
      if q2.tail == null { return; }
      assert q2.tail in q2.tasks;
      q2.tail.schedlink := null;
      if tail != null { assert tail in tasks; }
      if tail != null { tail.schedlink := q2.head; } else { head := q2.head; }
      tail := q2.tail;
      Join(tasks, q2.tasks);
      tasks := tasks + q2.tasks;
    }

    /** TQueuePop */
    method Pop() returns (t: T?)
      requires Valid()
      modifies this
      ensures Valid()
      ensures old(tasks) == [] ==> t == null && tasks == []
      ensures old(tasks) != [] ==> t == old(tasks)[0] && tasks == old(tasks)[1..]
    {
      t := head;
      if t != null {
        head := t.schedlink;
        if head == null { tail := null; }
        Uncons(tasks);
        tasks := tasks[1..];
      }
    }

    /** TQueuePopList */
    method PopList() returns (l: TList)
      requires Valid()
      modifies this
      ensures Valid() && tasks == []
      ensures fresh(l) && l.Valid() && l.tasks == old(tasks)
    {
      l := new TList();
      l.head := head;
      l.tasks := tasks;
      head, tail, tasks := null, null, [];
    }
  }

  /** The first task of list l to the head of queue q. */
  method Shift(l: TList, q: TQueue)
    requires l.Valid() && q.Valid() && l.tasks != [] && l.tasks[0] !in q.tasks
    modifies l, q, {l.tasks[0]}
    ensures l.Valid() && q.Valid()
    ensures l.tasks == old(l.tasks)[1..] && q.tasks == [old(l.tasks)[0]] + old(q.tasks)
  {
    l.Distinct();
    var t := l.Pop();
    assert t !in l.tasks;
    q.Push(t);
  }

  /** The first task of list g to the head of list l. */
  method ShiftTo(g: TList, l: TList)
    requires g.Valid() && l.Valid() && g != l && g.tasks != [] && g.tasks[0] !in l.tasks
    modifies g, l, {g.tasks[0]}
    ensures g.Valid() && l.Valid()
    ensures g.tasks == old(g.tasks)[1..] && l.tasks == [old(g.tasks)[0]] + old(l.tasks)
  {
    g.Distinct();
    var t := g.Pop();
    assert t !in g.tasks;
    l.Push(t);
  }
}

/** The scheduler on its three queues in memory. */
module Scheduler {
  import opened Words
  import opened Mlfq

  /** queue_t: a FIFO of processes. */
  class Queue {
    var items: seq<Pid>

    /** queue_init. */
    constructor ()
      ensures items == []
    {
      items := [];
    }

    method Append(p: Pid)
      modifies this
      ensures items == old(items) + [p]
    {
      items := items + [p];
    }

    /** dequeue: the head, or nothing. */
    method TakeHead() returns (r: Option<Pid>)
      modifies this
      ensures old(items) == [] ==> r == None && items == []
      ensures old(items) != [] ==> r == Some(old(items)[0]) && items == old(items)[1..]
    {
      if items == [] {
        return None;
      }
      r := Some(items[0]);
      items := items[1..];
    }

    /** try_rm_item. */
    method TryRemove(p: Pid)
      modifies this
      ensures items == Remove(old(items), p)
    {
      var i := 0;
      ghost var q := items;
      assert q == q[..0] + q[0..];
      while i < |items| && items[i] != p
        invariant i <= |items| && items == q
        invariant Remove(q, p) == q[..i] + Remove(q[i..], p)
      {
        RemoveFrom(q, p, i);
        i := i + 1;
      }
      if i < |items| {
        RemoveFrom(q, p, i);
        items := items[..i] + items[i + 1..];
      }
    }

    /** dequeue_runnable: rotate at most once round the queue. */
    method DequeueRunnable(ps: Procs) returns (pid: nat)
      modifies this
      ensures (pid, items) == Dequeue(old(items), ps)
    {
      ghost var q := items;
      var count, i := |items|, 0;
      while i < count
        invariant i <= |q| == count && items == q[i..] + q[..i]
        invariant FirstRunnable(q, ps, 0) == FirstRunnable(q, ps, i)
      {
        var p := TakeHead();
        assert p == Some(q[i]) && items == q[i + 1..] + q[..i];
        if Runnable(ps.status(p.value)) {
          return p.value;
        }
        Append(p.value);
        assert q[..i + 1] == q[..i] + [q[i]];
        i := i + 1;
      }
      assert q[count..] + q[..count] == q;
      return 0;
    }
  }

  /** Where the search for an entry stands. */
  lemma RemoveFrom(q: seq<Pid>, p: Pid, i: nat)
    requires i < |q|
    ensures q[i] == p ==> Remove(q[i..], p) == q[i + 1..]
    ensures q[i] != p ==> q[..i] + Remove(q[i..], p) == q[..i + 1] + Remove(q[i + 1..], p)
  {
    assert q[i..][1..] == q[i + 1..];
    assert q[..i + 1] == q[..i] + [q[i]];
  }

  class Scheduler {
    const high: Queue
    const mid: Queue
    const low: Queue

    ghost predicate Valid()
    {
      high != mid && high != low && mid != low
    }

    ghost function Value(): Queues
      reads high, mid, low
    {
      Queues(high.items, mid.items, low.items)
    }

    /** mlfq_init. */
    constructor ()
      ensures Valid() && fresh(high) && fresh(mid) && fresh(low) && Value() == Queues([], [], []) && Once(Value())
    {
      high := new Queue();
      mid := new Queue();
      low := new Queue();
    }

    /** remove_pid. */
    method RemoveProcess(p: Pid)
      requires Valid()
      modifies high, mid, low
      ensures Value() == RemovePid(old(Value()), p)
    {
      high.TryRemove(p);
      mid.TryRemove(p);
      low.TryRemove(p);
    }

    /** pick_next_pid. */
    method PickNext(ps: Procs) returns (pid: nat)
      requires Valid()
      modifies high, mid, low
      ensures (pid, Value()) == Pick(old(Value()), ps)
    {
      pid := high.DequeueRunnable(ps);
      if pid == 0 {
        pid := mid.DequeueRunnable(ps);
      }
      if pid == 0 {
        pid := low.DequeueRunnable(ps);
      }
    }

    /** enqueue_pid. */
    method EnqueueProcess(p: Pid, ps: Procs)
      requires Valid()
      modifies high, mid, low
      ensures Value() == Enqueue(old(Value()), p, ps)
    {
      RemoveProcess(p);
      if ps.status(p) == UNUSED {
        return;
      }
      var level := Level(p, ps);
      if level == 0 {
        high.Append(p);
      } else if level == 1 {
        mid.Append(p);
      } else {
        low.Append(p);
      }
    }

    /** mlfq. */
    method Run(cur: Pid, ps: Procs) returns (pid: nat)
      requires Valid()
      modifies high, mid, low
      ensures (pid, Value()) == Schedule(old(Value()), cur, ps)
    {
      var c := ps.status(cur);
      if c == RUNNING || c == RUNNABLE || c == READY {
        RemoveProcess(cur);
      }
      pid := PickNext(ps);
      if pid == 0 {
        if c == RUNNING || c == RUNNABLE {
          pid := cur;
        }
        return;
      }
      if c == READY || c == RUNNABLE {
        EnqueueProcess(cur, ps);
      }
    }

    /** mlfq_update. */
    method OnTransition(p: Pid, t: Transition, ps: Procs)
      requires Valid()
      modifies high, mid, low
      ensures Value() == Transit(old(Value()), p, t, ps)
    {
      match t
      case ON_ARRIVE => EnqueueProcess(p, ps);
      case ON_SCHED_IN => RemoveProcess(p);
      case ON_SCHED_OUT => EnqueueProcess(p, ps);
      case ON_STOP => RemoveProcess(p);
      case ON_SLEEP =>
    }
  }
}

/** The multi-level feedback queue scheduler. */
module Mlfq {
  import opened Platform

  const QUANTUM := 6_000_000

  datatype Status = UNUSED | LOADING | READY | RUNNING | RUNNABLE | PENDING_SYSCALL | SLEEPING

  predicate Runnable(s: Status) { s == READY || s == RUNNABLE }

  /** Processes by pid, which is positive; 0 stands for none. */
  type Pid = p: nat | p > 0 witness 1

  /** Status and consumed time of every process. */
  datatype Procs = Procs(status: Pid -> Status, time: Pid -> nat)

  /** The three FIFO queues, head first. */
  datatype Queues = Queues(high: seq<Pid>, mid: seq<Pid>, low: seq<Pid>)

  // --- Queue operations ------------------------------------------------------

  /** try_rm_item: the first occurrence goes. */
  function Remove(q: seq<Pid>, p: Pid): seq<Pid> {
    if q == [] then []
    else
      var head: Pid := q[0];
      if head == p then q[1..] else [head] + Remove(q[1..], p)
  }

  function FirstRunnable(q: seq<Pid>, ps: Procs, i: nat): (r: nat)
    requires i <= |q|
    ensures i <= r <= |q| && (r < |q| ==> Runnable(ps.status(q[r])))
    ensures forall j | i <= j < r :: !Runnable(ps.status(q[j]))
    decreases |q| - i
  {
    if i == |q| || Runnable(ps.status(q[i])) then i else FirstRunnable(q, ps, i + 1)
  }

  /** dequeue_runnable: the first runnable entry, the ones it passed over moved to
      the back; or nothing and the queue as it was. */
  function Dequeue(q: seq<Pid>, ps: Procs): (nat, seq<Pid>) {
    var k := FirstRunnable(q, ps, 0);
    var p: nat := if k < |q| then q[k] else 0;
    (p, if k < |q| then q[k + 1..] + q[..k] else q)
  }

  /** pick_next_pid. */
  function Pick(s: Queues, ps: Procs): (nat, Queues) {
    var (p, q) := Dequeue(s.high, ps);
    if p != 0 then (p, s.(high := q))
    else
      var (p1, q1) := Dequeue(s.mid, ps);
      if p1 != 0 then (p1, s.(mid := q1))
      else var (p2, q2) := Dequeue(s.low, ps); (p2, s.(low := q2))
  }

  /** remove_pid. */
  function RemovePid(s: Queues, p: Pid): Queues {
    Queues(Remove(s.high, p), Remove(s.mid, p), Remove(s.low, p))
  }

  /** level_for_pid. */
  function Level(p: Pid, ps: Procs): nat {
    if p < USER_PID_START then 0
    else if ps.time(p) <= QUANTUM then 0
    else if ps.time(p) < 2 * QUANTUM then 1
    else 2
  }

  function Push(s: Queues, level: nat, p: Pid): Queues {
    if level == 0 then s.(high := s.high + [p])
    else if level == 1 then s.(mid := s.mid + [p])
    else s.(low := s.low + [p])
  }

  /** enqueue_pid. */
  function Enqueue(s: Queues, p: Pid, ps: Procs): Queues {
    var r := RemovePid(s, p);
    if ps.status(p) == UNUSED then r else Push(r, Level(p, ps), p)
  }

  /** The queues without a current process that may run on. */
  function Without(s: Queues, cur: Pid, ps: Procs): Queues {
    var c := ps.status(cur);
    if c == RUNNING || c == RUNNABLE || c == READY then RemovePid(s, cur) else s
  }

  /** mlfq, with `cur` the process that was running. */
  function Schedule(s: Queues, cur: Pid, ps: Procs): (nat, Queues) {
    var c := ps.status(cur);
    var (next, s2) := Pick(Without(s, cur, ps), ps);
    if next == 0 then (if c == RUNNING || c == RUNNABLE then cur else 0, s2)
    else (next, if c == READY || c == RUNNABLE then Enqueue(s2, cur, ps) else s2)
  }

  datatype Transition = ON_ARRIVE | ON_SCHED_IN | ON_SCHED_OUT | ON_STOP | ON_SLEEP

  /** mlfq_update. */
  function Transit(s: Queues, p: Pid, t: Transition, ps: Procs): Queues {
    match t
    case ON_ARRIVE => Enqueue(s, p, ps)
    case ON_SCHED_IN => RemovePid(s, p)
    case ON_SCHED_OUT => Enqueue(s, p, ps)
    case ON_STOP => RemovePid(s, p)
    case ON_SLEEP => s
  }

  // --- No process in two places ----------------------------------------------

  /** How often a process is queued. */
  ghost function Count(s: Queues, p: Pid): nat {
    multiset(s.high)[p] + multiset(s.mid)[p] + multiset(s.low)[p]
  }

  ghost predicate Once(s: Queues) {
    forall p: Pid :: Count(s, p) <= 1
  }

  lemma AppendCounts(q: seq<Pid>, p: Pid, x: Pid)
    ensures multiset(q + [p])[x] == multiset(q)[x] + if x == p then 1 else 0
  {
  }

  lemma PushCounts(s: Queues, level: nat, p: Pid, x: Pid)
    ensures Count(Push(s, level, p), x) == Count(s, x) + if x == p then 1 else 0
  {
    AppendCounts(s.high, p, x);
    AppendCounts(s.mid, p, x);
    AppendCounts(s.low, p, x);
  }

  lemma {:induction false} RemoveCounts(q: seq<Pid>, p: Pid, x: Pid)
    ensures multiset(Remove(q, p))[x] == if x == p && multiset(q)[p] > 0 then multiset(q)[x] - 1 else multiset(q)[x]
    decreases |q|
  {
    if q != [] {
      assert q == [q[0]] + q[1..];
      if q[0] != p {
        RemoveCounts(q[1..], p, x);
      }
    }
  }

  /** Rotation and removal of the chosen entry. */
  lemma DequeueCounts(q: seq<Pid>, ps: Procs, x: Pid)
    ensures var (p, r) := Dequeue(q, ps);
            multiset(q)[x] == multiset(r)[x] + if p == x then 1 else 0
  {
    var k := FirstRunnable(q, ps, 0);
    if k < |q| {
      assert q == q[..k] + [q[k]] + q[k + 1..];
    }
  }

  lemma RemovePidCounts(s: Queues, p: Pid, x: Pid)
    requires Count(s, p) <= 1
    ensures Count(RemovePid(s, p), x) == if x == p then 0 else Count(s, x)
  {
    RemoveCounts(s.high, p, x);
    RemoveCounts(s.mid, p, x);
    RemoveCounts(s.low, p, x);
  }

  lemma EnqueueCounts(s: Queues, p: Pid, ps: Procs, x: Pid)
    requires Count(s, p) <= 1
    ensures Count(Enqueue(s, p, ps), x) == if x == p then (if ps.status(p) == UNUSED then 0 else 1) else Count(s, x)
  {
    RemovePidCounts(s, p, x);
    PushCounts(RemovePid(s, p), Level(p, ps), p, x);
  }

  lemma PickCounts(s: Queues, ps: Procs, x: Pid)
    ensures var (p, r) := Pick(s, ps); Count(s, x) == Count(r, x) + if p == x then 1 else 0
  {
    DequeueCounts(s.high, ps, x);
    DequeueCounts(s.mid, ps, x);
    DequeueCounts(s.low, ps, x);
  }

  lemma WithoutCounts(s: Queues, cur: Pid, ps: Procs, x: Pid)
    requires Once(s)
    ensures Count(Without(s, cur, ps), x) <= 1
    ensures x != cur ==> Count(Without(s, cur, ps), x) == Count(s, x)
    ensures Runnable(ps.status(cur)) ==> Count(Without(s, cur, ps), cur) == 0
  {
    RemovePidCounts(s, cur, x);
    RemovePidCounts(s, cur, cur);
  }

  /** What a scheduling decision does to every process's place. */
  lemma ScheduleCounts(s: Queues, cur: Pid, ps: Procs, x: Pid)
    requires Once(s)
    ensures var (p, r) := Schedule(s, cur, ps);
            && Count(r, x) <= 1
            && (x != cur ==> Count(s, x) == Count(r, x) + if p == x then 1 else 0)
  {
    WithoutCounts(s, cur, ps, x);
    WithoutCounts(s, cur, ps, cur);
    var s1 := Without(s, cur, ps);
    PickCounts(s1, ps, x);
    PickCounts(s1, ps, cur);
    var s2 := Pick(s1, ps).1;
    if Runnable(ps.status(cur)) {
      EnqueueCounts(s2, cur, ps, x);
    }
  }

  datatype Op = Decide(cur: Pid, ps: Procs) | Move(p: Pid, t: Transition, ps: Procs)

  function Apply(s: Queues, o: Op): Queues {
    match o
    case Decide(cur, ps) => Schedule(s, cur, ps).1
    case Move(p, t, ps) => Transit(s, p, t, ps)
  }

  lemma ApplyKeeps(s: Queues, o: Op)
    requires Once(s)
    ensures Once(Apply(s, o))
  {
    forall x: Pid ensures Count(Apply(s, o), x) <= 1 {
      ApplyCounts(s, o, x);
    }
  }

  lemma TransitCounts(s: Queues, p: Pid, t: Transition, ps: Procs, x: Pid)
    requires Once(s)
    ensures Count(Transit(s, p, t, ps), x) <= 1
  {
    match t
    case ON_ARRIVE => EnqueueCounts(s, p, ps, x);
    case ON_SCHED_IN => RemovePidCounts(s, p, x);
    case ON_SCHED_OUT => EnqueueCounts(s, p, ps, x);
    case ON_STOP => RemovePidCounts(s, p, x);
    case ON_SLEEP =>
  }

  lemma ApplyCounts(s: Queues, o: Op, x: Pid)
    requires Once(s)
    ensures Count(Apply(s, o), x) <= 1
  {
    match o
    case Decide(cur, ps) => ScheduleCounts(s, cur, ps, x);
    case Move(p, t, ps) => TransitCounts(s, p, t, ps, x);
  }

  function ApplyAll(s: Queues, os: seq<Op>): Queues
    decreases |os|
  {
    if os == [] then s else ApplyAll(Apply(s, os[0]), os[1..])
  }

  /** Over every sequence of calls, with statuses and times changing freely in
      between, no process is queued twice. */
  lemma {:induction false} NeverTwice(s: Queues, os: seq<Op>)
    requires Once(s)
    ensures Once(ApplyAll(s, os))
    decreases |os|
  {
    if os != [] {
      ApplyKeeps(s, os[0]);
      NeverTwice(Apply(s, os[0]), os[1..]);
    }
  }

  // --- Priority and conservation ---------------------------------------------

  ghost predicate NoneRunnable(q: seq<Pid>, ps: Procs) {
    forall j | 0 <= j < |q| :: !Runnable(ps.status(q[j]))
  }

  /** A pick is runnable and bypasses no runnable process of a higher queue. */
  lemma PickPriority(s: Queues, ps: Procs)
    ensures var (p, r) := Pick(s, ps);
            && (p == 0 ==> NoneRunnable(s.high, ps) && NoneRunnable(s.mid, ps) && NoneRunnable(s.low, ps) && r == s)
            && (p != 0 ==> Runnable(ps.status(p)))
            && (p != 0 && p in s.mid && p !in s.high ==> NoneRunnable(s.high, ps))
            && (p != 0 && p in s.low && p !in s.high && p !in s.mid ==> NoneRunnable(s.high, ps) && NoneRunnable(s.mid, ps))
  {
    var k := FirstRunnable(s.high, ps, 0);
    if k < |s.high| {
      assert s.high[k] in s.high;
    } else {
      var k1 := FirstRunnable(s.mid, ps, 0);
      if k1 < |s.mid| {
        assert s.mid[k1] in s.mid;
      }
    }
  }

  /** A process is in a queue. */
  predicate Queued(s: Queues, p: Pid) { p in s.high || p in s.mid || p in s.low }

  lemma QueuedCount(s: Queues, p: Pid)
    ensures Queued(s, p) <==> Count(s, p) > 0
  {
  }

  /** Another process that could run is queued. */
  ghost predicate OtherRunnable(s: Queues, cur: Pid, ps: Procs) {
    exists x: Pid :: x != cur && Queued(s, x) && Runnable(ps.status(x))
  }

  /** Without the current process, something is picked exactly when another
      process could run. */
  lemma PicksOther(s: Queues, cur: Pid, ps: Procs)
    requires Once(s)
    ensures Pick(RemovePid(s, cur), ps).0 != 0 <==> OtherRunnable(s, cur, ps)
  {
    var s1 := RemovePid(s, cur);
    var p := Pick(s1, ps).0;
    PickPriority(s1, ps);
    if p != 0 {
      PickCounts(s1, ps, p);
      RemovePidCounts(s, cur, p);
      QueuedCount(s, p);
    }
    forall x: Pid | x != cur && Queued(s, x) && Runnable(ps.status(x)) ensures p != 0 {
      RemovePidCounts(s, cur, x);
      QueuedCount(s, x);
      QueuedCount(s1, x);
    }
  }

  /** The current process, if it may run on, is chosen or queued again. */
  predicate Kept(s: Queues, cur: Pid, ps: Procs) {
    var (p, r) := Schedule(s, cur, ps);
    p == cur || Queued(r, cur)
  }

  /** When the scheduler keeps a current process that may run on: always if it is
      RUNNABLE, only next to another runnable process if it is READY, and only
      without one if it is still RUNNING. Otherwise it is in no queue and not
      chosen. */
  lemma CurrentKept(s: Queues, cur: Pid, ps: Procs)
    requires Once(s) && (Runnable(ps.status(cur)) || ps.status(cur) == RUNNING)
    ensures Kept(s, cur, ps) <==>
              ps.status(cur) == RUNNABLE || (ps.status(cur) == READY <==> OtherRunnable(s, cur, ps))
  {
    PicksOther(s, cur, ps);
    KeptWhen(s, cur, ps);
  }

  lemma KeptWhen(s: Queues, cur: Pid, ps: Procs)
    requires Once(s) && (Runnable(ps.status(cur)) || ps.status(cur) == RUNNING)
    ensures Kept(s, cur, ps) <==>
              if Pick(RemovePid(s, cur), ps).0 != 0 then Runnable(ps.status(cur)) else ps.status(cur) != READY
  {
    var s1 := RemovePid(s, cur);
    var (next, s2) := Pick(s1, ps);
    RemovePidCounts(s, cur, cur);
    PickCounts(s1, ps, cur);
    QueuedCount(s2, cur);
    RequeuedIs(s2, cur, ps);
  }

  lemma RequeuedIs(s: Queues, p: Pid, ps: Procs)
    requires Count(s, p) <= 1
    ensures Queued(Enqueue(s, p, ps), p) <==> ps.status(p) != UNUSED
  {
    EnqueueCounts(s, p, ps, p);
    QueuedCount(Enqueue(s, p, ps), p);
  }

  function JustReady(): Procs {
    Procs((p: Pid) => if p == 7 then READY else UNUSED, (p: Pid) => 0)
  }

  /** A READY process alone is dropped: nothing is chosen and no queue has it. */
  lemma ReadyAloneDropped()
    ensures Schedule(Queues([7], [], []), 7, JustReady()) == (0, Queues([], [], []))
  {
    var q: seq<Pid> := [7];
    assert Remove(q, 7) == [];
  }

  function RunningAndReady(): Procs {
    Procs((p: Pid) => if p == 7 then RUNNING else if p == 8 then READY else UNUSED, (p: Pid) => 0)
  }

  /** A RUNNING process is dropped when another one is picked. */
  lemma RunningDropped()
    ensures Schedule(Queues([8], [], []), 7, RunningAndReady()) == (8, Queues([], [], []))
  {
    var q: seq<Pid> := [8];
    assert Remove(q, 7) == q;
    assert FirstRunnable(q, RunningAndReady(), 0) == 0;
    assert q[1..] + q[..0] == [];
  }

  /** Every other process is where it was, unless it is the one chosen. */
  lemma OthersKept(s: Queues, cur: Pid, ps: Procs, x: Pid)
    requires Once(s) && x != cur
    ensures var (p, r) := Schedule(s, cur, ps);
            (Queued(s, x) <==> Queued(r, x) || p == x) && (p == x ==> !Queued(r, x))
  {
    ScheduleCounts(s, cur, ps, x);
    QueuedCount(s, x);
    QueuedCount(Schedule(s, cur, ps).1, x);
  }

  // --- Which queue -----------------------------------------------------------

  /** System processes, with pids below 6, are in the top queue only. */
  ghost predicate SystemOnTop(s: Queues) {
    forall p: Pid | p < 6 :: p !in s.mid && p !in s.low
  }

  lemma {:induction false} RemoveShrinks(q: seq<Pid>, x: Pid, p: Pid)
    ensures p in Remove(q, x) ==> p in q
    decreases |q|
  {
    if q != [] {
      RemoveShrinks(q[1..], x, p);
    }
  }

  /** The process is in a lower queue. */
  predicate Lower(s: Queues, p: Pid) { p in s.mid || p in s.low }

  lemma RemovedLower(s: Queues, x: Pid, p: Pid)
    ensures Lower(RemovePid(s, x), p) ==> Lower(s, p)
  {
    RemoveShrinks(s.mid, x, p);
    RemoveShrinks(s.low, x, p);
  }

  lemma EnqueuedLower(s: Queues, x: Pid, ps: Procs, p: Pid)
    requires p < 6
    ensures Lower(Enqueue(s, x, ps), p) ==> Lower(s, p)
  {
    RemovedLower(s, x, p);
  }

  lemma DequeueShrinks(q: seq<Pid>, ps: Procs, p: Pid)
    ensures p in Dequeue(q, ps).1 ==> p in q
  {
  }

  lemma PickedLower(s: Queues, ps: Procs, p: Pid)
    ensures Lower(Pick(s, ps).1, p) ==> Lower(s, p)
  {
    DequeueShrinks(s.mid, ps, p);
    DequeueShrinks(s.low, ps, p);
  }

  lemma AppliedLower(s: Queues, o: Op, p: Pid)
    requires p < 6
    ensures Lower(Apply(s, o), p) ==> Lower(s, p)
  {
    match o
    case Move(x, _, ps) =>
      RemovedLower(s, x, p);
      EnqueuedLower(s, x, ps, p);
    case Decide(cur, ps) =>
      RemovedLower(s, cur, p);
      var s1 := Without(s, cur, ps);
      PickedLower(s1, ps, p);
      EnqueuedLower(Pick(s1, ps).1, cur, ps, p);
  }

  lemma ApplyOnTop(s: Queues, o: Op)
    requires SystemOnTop(s)
    ensures SystemOnTop(Apply(s, o))
  {
    forall p: Pid | p < 6 ensures p !in Apply(s, o).mid && p !in Apply(s, o).low {
      AppliedLower(s, o, p);
    }
  }

  /** Over every sequence of calls, a system process is never in a lower queue. */
  lemma {:induction false} SystemStaysOnTop(s: Queues, os: seq<Op>)
    requires SystemOnTop(s)
    ensures SystemOnTop(ApplyAll(s, os))
    decreases |os|
  {
    if os != [] {
      ApplyOnTop(s, os[0]);
      SystemStaysOnTop(Apply(s, os[0]), os[1..]);
    }
  }

  lemma EmptyOnTop()
    ensures SystemOnTop(Queues([], [], []))
  {
  }

  predicate LastOf(q: seq<Pid>, p: Pid) { q != [] && q[|q| - 1] == p }

  lemma PushLast(s: Queues, level: nat, p: Pid)
    requires !Queued(s, p)
    ensures var r := Push(s, level, p);
            && (LastOf(r.high, p) <==> level == 0) && (LastOf(r.mid, p) <==> level == 1) && (LastOf(r.low, p) <==> level > 1)
  {
  }

  lemma LevelIs(p: Pid, ps: Procs)
    ensures Level(p, ps) == 0 <==> p < 6 || ps.time(p) <= 6_000_000
    ensures Level(p, ps) == 1 <==> p >= 6 && 6_000_000 < ps.time(p) < 12_000_000
    ensures Level(p, ps) > 1 <==> p >= 6 && 12_000_000 <= ps.time(p)
  {
  }

  /** Where a process goes when it arrives or leaves the processor: behind all
      others of the queue its consumed time calls for, and nowhere else. An unused
      one is queued nowhere. */
  lemma Placed(s: Queues, p: Pid, t: Transition, ps: Procs)
    requires Once(s) && (t == ON_ARRIVE || t == ON_SCHED_OUT)
    ensures var r := Transit(s, p, t, ps);
            if ps.status(p) == UNUSED then !Queued(r, p)
            else
              && Count(r, p) == 1
              && (LastOf(r.high, p) <==> p < 6 || ps.time(p) <= 6_000_000)
              && (LastOf(r.mid, p) <==> p >= 6 && 6_000_000 < ps.time(p) < 12_000_000)
              && (LastOf(r.low, p) <==> p >= 6 && 12_000_000 <= ps.time(p))
  {
    EnqueueCounts(s, p, ps, p);
    Removed(s, p);
    PushLast(RemovePid(s, p), Level(p, ps), p);
    LevelIs(p, ps);
  }

  lemma Removed(s: Queues, p: Pid)
    requires Once(s)
    ensures !Queued(RemovePid(s, p), p)
  {
    RemovePidCounts(s, p, p);
    QueuedCount(RemovePid(s, p), p);
  }

  /** A process that is scheduled in or stops is in no queue. */
  lemma TakenOut(s: Queues, p: Pid, t: Transition, ps: Procs)
    requires Once(s) && (t == ON_SCHED_IN || t == ON_STOP)
    ensures !Queued(Transit(s, p, t, ps), p)
  {
    Removed(s, p);
  }

  /** More consumed time never gives a higher queue. */
  lemma LongerIsLower(p: Pid, ps: Procs, qs: Procs)
    requires ps.time(p) <= qs.time(p)
    ensures Level(p, ps) <= Level(p, qs)
  {
  }

  /** A pick is READY or RUNNABLE, and there is one if any queued process is. */
  lemma PickStatus(s: Queues, ps: Procs)
    ensures var p := Pick(s, ps).0;
            if p == 0 then forall x: Pid | Queued(s, x) :: ps.status(x) != READY && ps.status(x) != RUNNABLE
            else ps.status(p) == READY || ps.status(p) == RUNNABLE
  {
    PickPriority(s, ps);
  }

  // --- Bounded waiting -------------------------------------------------------

  function QueueOf(s: Queues, level: nat): seq<Pid> {
    if level == 0 then s.high else if level == 1 then s.mid else s.low
  }

  /** The call leaves `p` where it is and finds it runnable. */
  predicate Waits(o: Op, p: Pid) {
    match o
    case Decide(cur, ps) => cur != p && Runnable(ps.status(p))
    case Move(x, t, _) => x != p || t == ON_SLEEP
  }

  predicate Chooses(s: Queues, o: Op, p: Pid) {
    o.Decide? && Schedule(s, o.cur, o.ps).0 == p
  }

  /** Some call of the sequence chooses `p`. */
  predicate ChosenIn(s: Queues, os: seq<Op>, p: Pid)
    decreases |os|
  {
    os != [] && (Chooses(s, os[0], p) || ChosenIn(Apply(s, os[0]), os[1..], p))
  }

  /** The call picks from the queue of this level: no process of a higher one is
      runnable. */
  ghost predicate PicksFrom(s: Queues, o: Op, level: nat) {
    o.Decide? && IdleAbove(Without(s, o.cur, o.ps), o.ps, level)
  }

  ghost function Picks(s: Queues, os: seq<Op>, level: nat): nat
    decreases |os|
  {
    if os == [] then 0
    else (if PicksFrom(s, os[0], level) then 1 else 0) + Picks(Apply(s, os[0]), os[1..], level)
  }

  lemma {:induction false} RemoveOther(q: seq<Pid>, x: Pid, k: nat) returns (k1: nat)
    requires k < |q| && q[k] != x
    ensures k1 <= k && k1 < |Remove(q, x)| && Remove(q, x)[k1] == q[k]
    decreases |q|
  {
    if q[0] == x {
      k1 := k - 1;
    } else if k == 0 {
      k1 := 0;
    } else {
      var m := RemoveOther(q[1..], x, k - 1);
      k1 := m + 1;
    }
  }

  /** Another process is removed or queued again: `p` moves up or stays. */
  lemma RemovedOther(s: Queues, x: Pid, level: nat, k: nat) returns (k1: nat)
    requires k < |QueueOf(s, level)| && QueueOf(s, level)[k] != x
    ensures k1 <= k && k1 < |QueueOf(RemovePid(s, x), level)| && QueueOf(RemovePid(s, x), level)[k1] == QueueOf(s, level)[k]
  {
    k1 := RemoveOther(QueueOf(s, level), x, k);
    assert QueueOf(RemovePid(s, x), level) == Remove(QueueOf(s, level), x);
  }

  lemma EnqueuedOther(s: Queues, x: Pid, ps: Procs, level: nat, k: nat) returns (k1: nat)
    requires k < |QueueOf(s, level)| && QueueOf(s, level)[k] != x
    ensures k1 <= k && k1 < |QueueOf(Enqueue(s, x, ps), level)| && QueueOf(Enqueue(s, x, ps), level)[k1] == QueueOf(s, level)[k]
  {
    k1 := RemovedOther(s, x, level, k);
    PushBehind(RemovePid(s, x), Level(x, ps), x, level);
  }

  lemma PushBehind(s: Queues, l: nat, x: Pid, level: nat)
    ensures QueueOf(s, level) <= QueueOf(Push(s, l, x), level)
  {
  }

  /** The queues above a level hold nothing runnable. */
  ghost predicate IdleAbove(s: Queues, ps: Procs, level: nat) {
    (level > 0 ==> NoneRunnable(s.high, ps)) && (level > 1 ==> NoneRunnable(s.mid, ps))
  }

  /** A pick is made from the queue of the highest level with a runnable process
      and leaves the others alone. */
  lemma PickIs(s: Queues, ps: Procs, level: nat)
    requires !NoneRunnable(QueueOf(s, level), ps)
    ensures Pick(s, ps).0 != 0
    ensures if IdleAbove(s, ps, level)
            then (Pick(s, ps).0, QueueOf(Pick(s, ps).1, level)) == Dequeue(QueueOf(s, level), ps)
            else QueueOf(Pick(s, ps).1, level) == QueueOf(s, level)
  {
    FoundRunnable(s.high, ps);
    FoundRunnable(s.mid, ps);
    FoundRunnable(s.low, ps);
  }

  lemma FoundRunnable(q: seq<Pid>, ps: Procs)
    ensures Dequeue(q, ps).0 != 0 <==> !NoneRunnable(q, ps)
  {
  }

  /** Dequeuing takes the entry at position k or brings it closer to the head. */
  lemma DequeueCloser(q: seq<Pid>, ps: Procs, k: nat) returns (k1: nat)
    requires k < |q| && Runnable(ps.status(q[k]))
    ensures Dequeue(q, ps).0 == q[k] || (k1 < k && k1 < |Dequeue(q, ps).1| && Dequeue(q, ps).1[k1] == q[k])
  {
    var j := FirstRunnable(q, ps, 0);
    k1 := if j < k then k - j - 1 else 0;
  }

  /** A pick takes `p`, or brings it closer to the head if it is made from the
      queue of `p`, or else leaves that queue alone. */
  lemma PickCloser(s: Queues, ps: Procs, level: nat, k: nat) returns (k1: nat)
    requires k < |QueueOf(s, level)| && Runnable(ps.status(QueueOf(s, level)[k]))
    ensures var (p, r) := Pick(s, ps);
            && p != 0
            && (p == QueueOf(s, level)[k] || (k1 <= k && k1 < |QueueOf(r, level)| && QueueOf(r, level)[k1] == QueueOf(s, level)[k]))
            && (IdleAbove(s, ps, level) ==> p == QueueOf(s, level)[k] || k1 < k)
  {
    PickIs(s, ps, level);
    k1 := k;
    if IdleAbove(s, ps, level) {
      k1 := DequeueCloser(QueueOf(s, level), ps, k);
    }
  }

  /** One call on a waiting process: it is chosen, or its position does not grow,
      and shrinks if the pick was made from its queue. */
  lemma CallCloser(s: Queues, o: Op, level: nat, k: nat, p: Pid) returns (k1: nat)
    requires k < |QueueOf(s, level)| && QueueOf(s, level)[k] == p && Waits(o, p)
    ensures Chooses(s, o, p) || (k1 < |QueueOf(Apply(s, o), level)| && QueueOf(Apply(s, o), level)[k1] == p
                                 && k1 <= k && (PicksFrom(s, o, level) ==> k1 < k))
  {
    match o
    case Move(x, t, ps) =>
      if t == ON_ARRIVE || t == ON_SCHED_OUT {
        k1 := EnqueuedOther(s, x, ps, level, k);
      } else if t == ON_SLEEP {
        k1 := k;
      } else {
        k1 := RemovedOther(s, x, level, k);
      }
    case Decide(cur, ps) =>
      k1 := k;
      var s1 := Without(s, cur, ps);
      if s1 != s {
        k1 := RemovedOther(s, cur, level, k);
      }
      k1 := PickCloser(s1, ps, level, k1);
      var (next, s2) := Pick(s1, ps);
      if next != p && Runnable(ps.status(cur)) {
        k1 := EnqueuedOther(s2, cur, ps, level, k1);
      }
  }

  /** Bounded waiting, over every sequence of mlfq and mlfq_update calls: a process
      at position k of its queue that stays runnable and is not moved itself is
      chosen within k + 1 picks made from that queue. */
  lemma {:induction false} BoundedWaiting(s: Queues, os: seq<Op>, level: nat, k: nat, p: Pid)
    requires k < |QueueOf(s, level)| && QueueOf(s, level)[k] == p
    requires (forall i | 0 <= i < |os| :: Waits(os[i], p)) && Picks(s, os, level) > k
    ensures ChosenIn(s, os, p)
    decreases |os|
  {
    assert Waits(os[0], p);
    if !Chooses(s, os[0], p) {
      var k1 := CallCloser(s, os[0], level, k, p);
      BoundedWaiting(Apply(s, os[0]), os[1..], level, k1, p);
    }
  }

  function Decisions(os: seq<Op>): nat {
    if os == [] then 0 else (if os[0].Decide? then 1 else 0) + Decisions(os[1..])
  }

  lemma {:induction false} TopPicks(s: Queues, os: seq<Op>)
    ensures Picks(s, os, 0) == Decisions(os)
    decreases |os|
  {
    if os != [] {
      TopPicks(Apply(s, os[0]), os[1..]);
    }
  }

  /** In the top queue, where every system process is (SystemStaysOnTop), k + 1 calls of mlfq are enough. */
  lemma TopWaiting(s: Queues, os: seq<Op>, k: nat, p: Pid)
    requires k < |s.high| && s.high[k] == p && (forall i | 0 <= i < |os| :: Waits(os[i], p)) && Decisions(os) > k
    ensures ChosenIn(s, os, p)
  {
    TopPicks(s, os);
    BoundedWaiting(s, os, 0, k, p);
  }
}

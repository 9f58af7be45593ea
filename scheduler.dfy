/** The multi-level ready queue: tasks wait in one FIFO queue per priority level and
    are dispatched by priority, by round robin (priority order plus a time-slice
    stamp) or shortest job first; dispatched tasks are tracked by id until they are
    reported back, when they join the history and the counters. */
module Scheduling {
  import opened Tasks

  datatype Strategy = PriorityBased | RoundRobin | Preemptive | ShortestJobFirst

  /** The counters of `get_stats`, without the running means of wait and execution time. */
  datatype Stats = Stats(
    total: nat,
    completed: nat,
    failed: nat,
    queuedTasks: nat,
    runningTasks: nat,
    strategy: Strategy)

  /** Priority level -> FIFO queue of tasks, front first. */
  type Queues = map<int, seq<Task>>

  /** The queue of level `p`; a level that was never used reads as empty. */
  function Level(qs: Queues, p: int): seq<Task>
  {
    if p in qs then qs[p] else []
  }

  /** `qs` with `t` appended at the back of its own priority level. */
  function Enqueue(qs: Queues, t: Task): (r: Queues)
    ensures Level(r, t.priority) == Level(qs, t.priority) + [t]
    ensures forall p :: p != t.priority ==> Level(r, p) == Level(qs, p)
  {
    qs[t.priority := Level(qs, t.priority) + [t]]
  }

  /** The lowest level in [lo, levels) whose queue is non-empty. */
  function FirstNonEmpty(qs: Queues, lo: int, levels: int): (r: Option<int>)
    decreases levels - lo
    ensures r.Some? ==> lo <= r.value < levels && Level(qs, r.value) != []
    ensures r.Some? ==> forall l :: lo <= l < r.value ==> Level(qs, l) == []
    ensures r.None? <==> forall l :: lo <= l < levels ==> Level(qs, l) == []
  {
    if lo >= levels then None
    else if Level(qs, lo) != [] then Some(lo)
    else FirstNonEmpty(qs, lo + 1, levels)
  }

  /** The number of queued tasks over all levels, including those outside the
      dispatched range. */
  ghost function QueuedCount(qs: Queues): nat
    decreases |qs|
  {
    if qs == map[] then 0
    else
      var k := SomeKey(qs);
      |qs[k]| + QueuedCount(qs - {k})
  }

  /** Some key of a non-empty map. */
  ghost function SomeKey<K, V>(m: map<K, V>): (k: K)
    requires m != map[]
    ensures k in m
  {
    assert |m.Keys| > 0;
    var k :| k in m; k
  }

  /** Picks some key of a non-empty map. */
  method ChooseKey<K, V>(m: map<K, V>) returns (k: K)
    requires m != map[]
    ensures k in m
  {
    assert |m.Keys| > 0;
    k :| k in m;
  }

  /** Any level can be split off first when counting. */
  lemma {:induction false} QueuedCountRemove(qs: Queues, k: int)
    requires k in qs
    ensures QueuedCount(qs) == |qs[k]| + QueuedCount(qs - {k})
    decreases |qs|
  {
    var j := SomeKey(qs);
    if j != k {
      assert qs - {j} - {k} == qs - {k} - {j};
      assert |qs - {j}| < |qs|;
      QueuedCountRemove(qs - {j}, k);
      assert |qs - {k}| < |qs|;
      QueuedCountRemove(qs - {k}, j);
    }
  }

  /** Replacing one level's queue changes the count by the difference in lengths. */
  lemma QueuedCountUpdate(qs: Queues, k: int, s: seq<Task>)
    ensures QueuedCount(qs[k := s]) == QueuedCount(qs) - |Level(qs, k)| + |s|
  {
    QueuedCountRemove(qs[k := s], k);
    if k in qs {
      QueuedCountRemove(qs, k);
      assert qs[k := s] - {k} == qs - {k};
    } else {
      assert qs[k := s] - {k} == qs;
    }
  }

  /** Adding a task queues exactly one more task. */
  lemma EnqueueCount(qs: Queues, t: Task)
    ensures QueuedCount(Enqueue(qs, t)) == QueuedCount(qs) + 1
  {
    QueuedCountUpdate(qs, t.priority, Level(qs, t.priority) + [t]);
  }

  /** A newly added task never overtakes a task already at the front of an equally or
      more urgent level: priority-based selection after the add picks the same level's
      front, which is the same task. */
  lemma EnqueueKeepsEarlierHead(qs: Queues, levels: int, t: Task)
    requires FirstNonEmpty(qs, 0, levels).Some?
    requires FirstNonEmpty(qs, 0, levels).value <= t.priority
    ensures FirstNonEmpty(Enqueue(qs, t), 0, levels) == FirstNonEmpty(qs, 0, levels)
    ensures Level(Enqueue(qs, t), FirstNonEmpty(qs, 0, levels).value)[0]
         == Level(qs, FirstNonEmpty(qs, 0, levels).value)[0]
  {
  }

  /** A newly added task whose level lies in range and is more urgent than every
      non-empty level is the one priority-based selection picks next. */
  lemma EnqueueMoreUrgentIsNext(qs: Queues, levels: int, t: Task)
    requires 0 <= t.priority < levels
    requires FirstNonEmpty(qs, 0, levels).None? || t.priority < FirstNonEmpty(qs, 0, levels).value
    ensures FirstNonEmpty(Enqueue(qs, t), 0, levels) == Some(t.priority)
    ensures Level(Enqueue(qs, t), t.priority)[0] == t
  {
  }

  /** The queues left and the tasks handed out, in order, by `n` successive
      priority-based dispatches (fewer once every level in range is empty). */
  function DispatchRun(qs: Queues, levels: int, n: nat): (Queues, seq<Task>)
  {
    if n == 0 then (qs, [])
    else
      match FirstNonEmpty(qs, 0, levels)
      case None => (qs, [])
      case Some(l) =>
        var next := DispatchRun(qs[l := Level(qs, l)[1..]], levels, n - 1);
        (next.0, [Level(qs, l)[0]] + next.1)
  }

  /** One dispatch takes the front of the lowest non-empty level in range. */
  lemma DispatchRunOne(qs: Queues, levels: int)
    ensures DispatchRun(qs, levels, 1) ==
              match FirstNonEmpty(qs, 0, levels)
              case None => (qs, [])
              case Some(l) => (qs[l := Level(qs, l)[1..]], [Level(qs, l)[0]])
  {
    match FirstNonEmpty(qs, 0, levels)
    case None =>
    case Some(l) =>
      assert DispatchRun(qs[l := Level(qs, l)[1..]], levels, 0) == (qs[l := Level(qs, l)[1..]], []);
      assert [Level(qs, l)[0]] + [] == [Level(qs, l)[0]];
  }

  /** `n + 1` dispatches are `n` dispatches followed by one more on the queues they
      leave: the run is a sequence of single calls, so the one-call tie of
      `GetNextTask` extends to any number of calls in a row. */
  lemma {:induction false} DispatchRunStep(qs: Queues, levels: int, n: nat)
    ensures var run := DispatchRun(qs, levels, n);
            var last := DispatchRun(run.0, levels, 1);
            DispatchRun(qs, levels, n + 1) == (last.0, run.1 + last.1)
  {
    if n == 0 {
      assert [] + DispatchRun(qs, levels, 1).1 == DispatchRun(qs, levels, 1).1;
    } else {
      match FirstNonEmpty(qs, 0, levels)
      case None =>
        assert DispatchRun(qs, levels, n) == (qs, []);
        assert DispatchRun(qs, levels, 1) == (qs, []);
        assert DispatchRun(qs, levels, n + 1) == (qs, []);
        var none: seq<Task> := [];
        assert none + none == none;
      case Some(l) =>
        var qs' := qs[l := Level(qs, l)[1..]];
        DispatchRunStep(qs', levels, n - 1);
        var run' := DispatchRun(qs', levels, n - 1);
        var last := DispatchRun(run'.0, levels, 1);
        assert [Level(qs, l)[0]] + (run'.1 + last.1) == ([Level(qs, l)[0]] + run'.1) + last.1;
    }
  }

  /** Equal priority is served first come, first served: when no more urgent level in
      range holds work, `n` dispatches hand out the first `n` tasks of level `p` in the
      order they were added, and leave the rest of that level queued in that order. */
  lemma {:induction false} DispatchRunFifo(qs: Queues, levels: int, p: int, n: nat)
    requires 0 <= p < levels
    requires forall l :: 0 <= l < p ==> Level(qs, l) == []
    requires n <= |Level(qs, p)|
    ensures DispatchRun(qs, levels, n).1 == Level(qs, p)[..n]
    ensures Level(DispatchRun(qs, levels, n).0, p) == Level(qs, p)[n..]
  {
    if n > 0 {
      assert FirstNonEmpty(qs, 0, levels) == Some(p);
      var qs' := qs[p := Level(qs, p)[1..]];
      assert forall l :: 0 <= l < p ==> Level(qs', l) == Level(qs, l);
      DispatchRunFifo(qs', levels, p, n - 1);
      assert Level(qs', p)[..n - 1] == Level(qs, p)[1..n];
      assert Level(qs', p)[n - 1..] == Level(qs, p)[n..];
      assert [Level(qs, p)[0]] + Level(qs, p)[1..n] == Level(qs, p)[..n];
    }
  }

  /** Every queued task sits in the queue of its own priority level. */
  predicate FiledByPriority(qs: Queues)
  {
    forall p, i :: p in qs && 0 <= i < |qs[p]| ==> qs[p][i].priority == p
  }

  /** Replacing a level's queue by one whose tasks all have that priority keeps the
      queues filed by priority. */
  lemma FiledByPriorityUpdate(qs: Queues, l: int, s: seq<Task>)
    requires FiledByPriority(qs)
    requires forall j :: 0 <= j < |s| ==> s[j].priority == l
    ensures FiledByPriority(qs[l := s])
  {
  }

  /** Position (l, i) -- level l, index i -- is visited before position (l2, i2) by the
      level-by-level, front-to-back scan. */
  predicate Earlier(l: int, i: int, l2: int, i2: int)
  {
    l < l2 || (l == l2 && i < i2)
  }

  /** (l, i) holds a queued task of a level in [0, levels). */
  predicate InScan(qs: Queues, levels: int, l: int, i: int)
  {
    0 <= l < levels && 0 <= i < |Level(qs, l)|
  }

  function TimeAt(qs: Queues, l: int, i: int): real
    requires 0 <= i < |Level(qs, l)|
  {
    Level(qs, l)[i].estimatedTime
  }

  /** (l, i) is where shortest-job-first selection lands: its estimated time is minimal
      over every scanned position and strictly smaller than at every earlier one. */
  ghost predicate IsShortest(qs: Queues, levels: int, l: int, i: int)
  {
    && InScan(qs, levels, l, i)
    && (forall l2, i2 :: InScan(qs, levels, l2, i2) ==> TimeAt(qs, l, i) <= TimeAt(qs, l2, i2))
    && (forall l2, i2 :: InScan(qs, levels, l2, i2) && Earlier(l2, i2, l, i) ==>
          TimeAt(qs, l, i) < TimeAt(qs, l2, i2))
  }

  /** At most one position satisfies the selection rule. */
  lemma IsShortestUnique(qs: Queues, levels: int, l: int, i: int, l2: int, i2: int)
    requires IsShortest(qs, levels, l, i) && IsShortest(qs, levels, l2, i2)
    ensures l == l2 && i == i2
  {
  }

  /** The selected position holds the first occurrence of its task in its queue, so
      removing that task by identity removes exactly that position. */
  lemma IsShortestFirstOccurrence(qs: Queues, levels: int, l: int, i: int)
    requires IsShortest(qs, levels, l, i)
    ensures forall j :: 0 <= j < i ==> Level(qs, l)[j] != Level(qs, l)[i]
  {
    forall j | 0 <= j < i
      ensures Level(qs, l)[j] != Level(qs, l)[i]
    {
      assert InScan(qs, levels, l, j) && Earlier(l, j, l, i);
    }
  }

  /** When every task in range has the same estimated time, shortest-job-first selects
      the task priority-based selection would: the front of the lowest non-empty level. */
  lemma UniformTimesShortestIsHead(qs: Queues, levels: int, l: int, i: int)
    requires forall l1, i1, l2, i2 :: InScan(qs, levels, l1, i1) && InScan(qs, levels, l2, i2) ==>
               TimeAt(qs, l1, i1) == TimeAt(qs, l2, i2)
    requires IsShortest(qs, levels, l, i)
    ensures FirstNonEmpty(qs, 0, levels) == Some(l) && i == 0
  {
    var f := FirstNonEmpty(qs, 0, levels);
    assert f.Some?;
    assert InScan(qs, levels, f.value, 0);
    IsShortestUnique(qs, levels, l, i, f.value, 0);
  }

  /** `deque.remove(x)`: drops the first element identical to `x`. */
  function RemoveFirst(q: seq<Task>, x: Task): (r: seq<Task>)
    ensures x in q ==> |r| == |q| - 1
    ensures x !in q ==> r == q
  {
    if q == [] then []
    else
      assert q == [q[0]] + q[1..];
      if q[0] == x then q[1..] else [q[0]] + RemoveFirst(q[1..], x)
  }

  /** Removing the first occurrence is removing its index. */
  lemma {:induction false} RemoveFirstAt(q: seq<Task>, x: Task, i: int)
    requires 0 <= i < |q| && q[i] == x
    requires forall j :: 0 <= j < i ==> q[j] != x
    ensures RemoveFirst(q, x) == q[..i] + q[i + 1..]
  {
    if i > 0 {
      RemoveFirstAt(q[1..], x, i - 1);
      assert q[1..][..i - 1] == q[1..i];
      assert q[1..][i..] == q[i + 1..];
      assert [q[0]] + q[1..i] == q[..i];
    }
  }

  /** Removing the first occurrence of the task at (l, i) from its queue removes that
      position, keeps the queues filed by priority and queues one task fewer. */
  lemma RemoveAtFacts(qs: Queues, l: int, i: int)
    requires FiledByPriority(qs)
    requires 0 <= i < |Level(qs, l)|
    requires forall j :: 0 <= j < i ==> Level(qs, l)[j] != Level(qs, l)[i]
    ensures RemoveFirst(qs[l], qs[l][i]) == qs[l][..i] + qs[l][i + 1..]
    ensures FiledByPriority(qs[l := RemoveFirst(qs[l], qs[l][i])])
    ensures QueuedCount(qs[l := RemoveFirst(qs[l], qs[l][i])]) == QueuedCount(qs) - 1
  {
    var q := qs[l];
    RemoveFirstAt(q, q[i], i);
    var rest := q[..i] + q[i + 1..];
    assert forall j :: 0 <= j < |rest| ==> rest[j] == q[if j < i then j else j + 1];
    FiledByPriorityUpdate(qs, l, rest);
    QueuedCountUpdate(qs, l, rest);
  }

  /** Where the scan of shortest-job-first stands before position (level, idx):
      `found` is the first position of minimal estimated time `time` among the
      positions already visited, or None when none has been visited. */
  ghost predicate ScanSoFar(qs: Queues, levels: int, level: int, idx: int,
                            found: Option<(int, int)>, time: real)
  {
    match found
    case None =>
      forall l, i :: InScan(qs, levels, l, i) ==> !Earlier(l, i, level, idx)
    case Some(p) =>
      && InScan(qs, levels, p.0, p.1) && Earlier(p.0, p.1, level, idx)
      && TimeAt(qs, p.0, p.1) == time
      && (forall l, i :: InScan(qs, levels, l, i) && Earlier(l, i, level, idx) ==>
            time <= TimeAt(qs, l, i))
      && (forall l, i :: InScan(qs, levels, l, i) && Earlier(l, i, p.0, p.1) ==>
            time < TimeAt(qs, l, i))
  }

  /** (l, i) holds a task of a level in [0, levels) whose id is `id`. */
  predicate QueuedWithId(qs: Queues, levels: int, id: string, l: int, i: int)
  {
    InScan(qs, levels, l, i) && Level(qs, l)[i].id == id
  }

  /** (l, i) is the first position in scan order holding a task with id `id`. */
  ghost predicate FirstQueuedWithId(qs: Queues, levels: int, id: string, l: int, i: int)
  {
    QueuedWithId(qs, levels, id, l, i) &&
    forall l2, i2 :: QueuedWithId(qs, levels, id, l2, i2) ==> !Earlier(l2, i2, l, i)
  }

  class Scheduler {
    var queues: Queues
    const levels: int
    var strategy: Strategy
    var timeSlice: real
    var current: Task?
    var history: seq<Task>
    var running: map<string, Task>
    var total: nat
    var completed: nat
    var failed: nat
    /** Number of tasks handed out by `GetNextTask` so far. */
    ghost var dispatched: nat

    /** Every queued task sits in the queue of its own priority, every running task
        is filed under its own id, at most one counter is bumped per history entry, and
        every task ever added is either still queued or has been dispatched. */
    ghost predicate Valid()
      reads this
    {
      && FiledByPriority(queues)
      && (forall k :: k in running ==> running[k].id == k)
      && completed + failed <= |history|
      && total == QueuedCount(queues) + dispatched
    }

    constructor (levels: int, strategy: Strategy, timeSlice: real)
      ensures Valid()
      ensures this.levels == levels && this.strategy == strategy && this.timeSlice == timeSlice
      ensures queues == map[] && current == null && history == [] && running == map[]
      ensures total == 0 && completed == 0 && failed == 0
    {
      queues := map[];
      this.levels := levels;
      this.strategy := strategy;
      this.timeSlice := timeSlice;
      current := null;
      history := [];
      running := map[];
      total, completed, failed := 0, 0, 0;
      dispatched := 0;
    }

    /** The object `add_task` may flag for preemption. */
    function CurrentSet(): set<Task>
      reads this
    {
      if current == null then {} else {current}
    }

    /** Queues `task` at the back of its priority level; under the preemptive strategy
        it flags the current task when the new one is strictly more urgent. */
    method AddTask(task: Task)
      requires Valid()
      modifies this, CurrentSet()`preempted
      ensures Valid()
      ensures queues == Enqueue(old(queues), task)
      ensures QueuedCount(queues) == QueuedCount(old(queues)) + 1
      ensures total == old(total) + 1
      ensures current == old(current) && running == old(running) && history == old(history)
      ensures strategy == old(strategy) && timeSlice == old(timeSlice)
      ensures completed == old(completed) && failed == old(failed)
      ensures current != null ==>
                current.preempted ==
                  (old(current.preempted) || (strategy == Preemptive && task.priority < current.priority))
    {
      EnqueueCount(queues, task);
      queues := queues[task.priority := Level(queues, task.priority) + [task]];
      total := total + 1;
      if strategy == Preemptive && current != null && task.priority < current.priority {
        current.preempted := true;
      }
    }

    /** The new state after handing out the front of the lowest non-empty level in
        range, or after finding every such level empty. */
    ghost predicate HeadDispatched(qs0: Queues, running0: map<string, Task>, current0: Task?,
                                   t: Task?)
      reads this
    {
      match FirstNonEmpty(qs0, 0, levels)
      case None =>
        t == null && queues == qs0 && running == running0 && current == current0
      case Some(l) =>
        && t == Level(qs0, l)[0]
        && queues == qs0[l := Level(qs0, l)[1..]]
        && running == running0[t.id := t]
        && current == t
    }

    /** The new state after handing out the task at the position shortest-job-first
        selects, or after finding every level in range empty. */
    ghost predicate ShortestDispatched(qs0: Queues, running0: map<string, Task>, current0: Task?,
                                       t: Task?)
      reads this
    {
      if t == null then
        && (forall l :: 0 <= l < levels ==> Level(qs0, l) == [])
        && queues == qs0 && running == running0 && current == current0
      else
        exists l, i ::
          && IsShortest(qs0, levels, l, i)
          && t == Level(qs0, l)[i]
          && queues == qs0[l := Level(qs0, l)[..i] + Level(qs0, l)[i + 1..]]
          && running == running0[t.id := t]
          && current == t
    }

    /** Records `t`, taken from the front of level `l`, as dispatched. */
    method PopFront(l: int) returns (t: Task)
      requires Valid()
      requires Level(queues, l) != []
      modifies this
      ensures t == Level(old(queues), l)[0]
      ensures queues == old(queues)[l := Level(old(queues), l)[1..]]
      ensures running == old(running)[t.id := t] && current == t
      ensures dispatched == old(dispatched) + 1
      ensures QueuedCount(queues) == QueuedCount(old(queues)) - 1
      ensures strategy == old(strategy) && timeSlice == old(timeSlice) && history == old(history)
      ensures total == old(total) && completed == old(completed) && failed == old(failed)
      ensures Valid()
    {
      QueuedCountUpdate(queues, l, queues[l][1..]);
      t := queues[l][0];
      queues := queues[l := queues[l][1..]];
      current := t;
      running := running[t.id := t];
      dispatched := dispatched + 1;
    }

    /** Priority-based selection: the front of the lowest non-empty level in range. */
    method PriorityBasedTask() returns (t: Task?)
      requires Valid()
      modifies this
      ensures Valid()
      ensures HeadDispatched(old(queues), old(running), old(current), t)
      ensures t != null ==> dispatched == old(dispatched) + 1
      ensures t != null ==> QueuedCount(queues) == QueuedCount(old(queues)) - 1
      ensures t == null ==> dispatched == old(dispatched)
      ensures strategy == old(strategy) && timeSlice == old(timeSlice) && history == old(history)
      ensures total == old(total) && completed == old(completed) && failed == old(failed)
    {
      var level := 0;
      while level < levels
        invariant 0 <= level && (0 <= levels ==> level <= levels)
        invariant forall l :: 0 <= l < level ==> Level(queues, l) == []
      {
        if Level(queues, level) != [] {
          t := PopFront(level);
          return;
        }
        level := level + 1;
      }
      t := null;
    }

    /** The head a round-robin dispatch would stamp with the time slice. */
    ghost function RoundRobinFrame(): set<Task>
      reads this
    {
      if strategy != RoundRobin then {}
      else
        match FirstNonEmpty(queues, 0, levels)
        case None => {}
        case Some(l) => {Level(queues, l)[0]}
    }

    /** Round-robin selection: the priority-based pick, stamped with the time slice. */
    method RoundRobinTask() returns (t: Task?)
      requires Valid()
      requires strategy == RoundRobin
      modifies this, RoundRobinFrame()`timeSlice
      ensures Valid()
      ensures HeadDispatched(old(queues), old(running), old(current), t)
      ensures t != null ==> t.timeSlice == Some(timeSlice)
      ensures t != null ==> dispatched == old(dispatched) + 1
      ensures t != null ==> QueuedCount(queues) == QueuedCount(old(queues)) - 1
      ensures t == null ==> dispatched == old(dispatched)
      ensures strategy == old(strategy) && timeSlice == old(timeSlice) && history == old(history)
      ensures total == old(total) && completed == old(completed) && failed == old(failed)
    {
      var level := 0;
      while level < levels
        invariant 0 <= level && (0 <= levels ==> level <= levels)
        invariant forall l :: 0 <= l < level ==> Level(queues, l) == []
      {
        if Level(queues, level) != [] {
          t := PopFront(level);
          t.timeSlice := Some(timeSlice);
          return;
        }
        level := level + 1;
      }
      t := null;
    }

    /** The scan of shortest-job-first: the first position, level by level and front to
        back, of minimal estimated time, or None when every level in range is empty. */
    method FindShortest() returns (found: Option<(int, int)>)
      ensures found.Some? ==> IsShortest(queues, levels, found.value.0, found.value.1)
      ensures found.None? <==> forall l :: 0 <= l < levels ==> Level(queues, l) == []
    {
      found := None;
      var shortestTime: real := 0.0;
      var level := 0;
      while level < levels
        invariant 0 <= level && (0 <= levels ==> level <= levels)
        invariant ScanSoFar(queues, levels, level, 0, found, shortestTime)
      {
        var q := Level(queues, level);
        var i := 0;
        while i < |q|
          invariant 0 <= i <= |q|
          invariant ScanSoFar(queues, levels, level, i, found, shortestTime)
        {
          if found.None? || q[i].estimatedTime < shortestTime {
            shortestTime := q[i].estimatedTime;
            found := Some((level, i));
          }
          i := i + 1;
        }
        level := level + 1;
      }
      if found.None? {
        forall l | 0 <= l < levels
          ensures Level(queues, l) == []
        {
          assert !InScan(queues, levels, l, 0);
        }
      }
    }

    /** Records `t`, taken from position (l, i) by identity, as dispatched. */
    method TakeAt(l: int, i: int) returns (t: Task)
      requires Valid()
      requires 0 <= i < |Level(queues, l)|
      requires forall j :: 0 <= j < i ==> Level(queues, l)[j] != Level(queues, l)[i]
      modifies this
      ensures t == Level(old(queues), l)[i]
      ensures queues == old(queues)[l := Level(old(queues), l)[..i] + Level(old(queues), l)[i + 1..]]
      ensures running == old(running)[t.id := t] && current == t
      ensures dispatched == old(dispatched) + 1
      ensures QueuedCount(queues) == QueuedCount(old(queues)) - 1
      ensures strategy == old(strategy) && timeSlice == old(timeSlice) && history == old(history)
      ensures total == old(total) && completed == old(completed) && failed == old(failed)
      ensures Valid()
    {
      var q := queues[l];
      t := q[i];
      RemoveAtFacts(queues, l, i);
      queues := queues[l := RemoveFirst(q, t)];
      current := t;
      running := running[t.id := t];
      dispatched := dispatched + 1;
    }

    /** Shortest-job-first selection: removes the selected task from its queue. */
    method ShortestJobTask() returns (t: Task?)
      requires Valid()
      modifies this
      ensures Valid()
      ensures ShortestDispatched(old(queues), old(running), old(current), t)
      ensures t != null ==> dispatched == old(dispatched) + 1
      ensures t != null ==> QueuedCount(queues) == QueuedCount(old(queues)) - 1
      ensures t == null ==> dispatched == old(dispatched)
      ensures strategy == old(strategy) && timeSlice == old(timeSlice) && history == old(history)
      ensures total == old(total) && completed == old(completed) && failed == old(failed)
    {
      var found := FindShortest();
      if found.Some? {
        var l, i := found.value.0, found.value.1;
        ghost var qs0 := queues;
        IsShortestFirstOccurrence(queues, levels, l, i);
        t := TakeAt(l, i);
        assert IsShortest(qs0, levels, l, i) && t == Level(qs0, l)[i];
      } else {
        t := null;
      }
    }

    /** Hands out the next task by the current strategy; the preemptive strategy uses
        priority-based selection. */
    method GetNextTask() returns (t: Task?)
      requires Valid()
      modifies this, RoundRobinFrame()`timeSlice
      ensures Valid()
      ensures old(strategy) != ShortestJobFirst ==>
                HeadDispatched(old(queues), old(running), old(current), t)
      ensures old(strategy) == ShortestJobFirst ==>
                ShortestDispatched(old(queues), old(running), old(current), t)
      ensures old(strategy) != ShortestJobFirst ==>
                DispatchRun(old(queues), levels, 1) == (queues, if t == null then [] else [t])
      ensures old(strategy) == RoundRobin && t != null ==> t.timeSlice == Some(timeSlice)
      ensures t == null <==> forall l :: 0 <= l < levels ==> Level(old(queues), l) == []
      ensures t != null ==> 0 <= t.priority < levels
      ensures forall p :: !(0 <= p < levels) ==> Level(queues, p) == Level(old(queues), p)
      ensures t != null ==> QueuedCount(queues) == QueuedCount(old(queues)) - 1
      ensures t != null && t.id !in old(running) ==> |running| == |old(running)| + 1
      ensures t == null ==> queues == old(queues) && running == old(running)
      ensures strategy == old(strategy) && timeSlice == old(timeSlice) && history == old(history)
      ensures total == old(total) && completed == old(completed) && failed == old(failed)
    {
      DispatchRunOne(queues, levels);
      if strategy == PriorityBased {
        t := PriorityBasedTask();
      } else if strategy == RoundRobin {
        t := RoundRobinTask();
      } else if strategy == ShortestJobFirst {
        t := ShortestJobTask();
      } else {
        t := PriorityBasedTask();
      }
    }

    /** Takes a reported task out of the running map (if its id is there), appends it
        to the history and counts it as completed or failed by its status. */
    method TaskCompleted(task: Task)
      requires Valid()
      modifies this
      ensures Valid()
      ensures running == old(running) - {task.id}
      ensures history == old(history) + [task]
      ensures completed == old(completed) + (if task.status == Completed then 1 else 0)
      ensures failed == old(failed) + (if task.status == Failed then 1 else 0)
      ensures queues == old(queues) && current == old(current) && total == old(total)
      ensures strategy == old(strategy) && timeSlice == old(timeSlice)
    {
      if task.id in running {
        running := running - {task.id};
      }
      history := history + [task];
      if task.status == Completed {
        completed := completed + 1;
      } else if task.status == Failed {
        failed := failed + 1;
      }
    }

    /** The counters, the number of queued tasks over all levels and the number of
        running tasks. */
    method GetStats() returns (s: Stats)
      ensures s == Stats(total, completed, failed, QueuedCount(queues), |running|, strategy)
    {
      var queued := 0;
      var rest := queues;
      while rest != map[]
        invariant queued + QueuedCount(rest) == QueuedCount(queues)
        decreases |rest|
      {
        var k := ChooseKey(rest);
        QueuedCountRemove(rest, k);
        queued := queued + |rest[k]|;
        rest := rest - {k};
      }
      s := Stats(total, completed, failed, queued, |running|, strategy);
    }

    /** Looks a task up by id among the running tasks, then the queues of the levels in
        range in scan order, then the history; null when it is in none of them. */
    method GetTaskById(taskId: string) returns (r: Task?)
      requires Valid()
      ensures r != null ==> r.id == taskId
      ensures taskId in running ==> r == running[taskId]
      ensures taskId !in running && (exists l, i :: QueuedWithId(queues, levels, taskId, l, i)) ==>
                exists l, i :: FirstQueuedWithId(queues, levels, taskId, l, i) && r == Level(queues, l)[i]
      ensures taskId !in running && (forall l, i :: !QueuedWithId(queues, levels, taskId, l, i)) ==>
                (r == null <==> forall j :: 0 <= j < |history| ==> history[j].id != taskId)
      ensures taskId !in running && (forall l, i :: !QueuedWithId(queues, levels, taskId, l, i)) && r != null ==>
                exists j :: 0 <= j < |history| && r == history[j] &&
                  forall j2 :: 0 <= j2 < j ==> history[j2].id != taskId
    {
      if taskId in running {
        return running[taskId];
      }
      var level := 0;
      while level < levels
        invariant 0 <= level && (0 <= levels ==> level <= levels)
        invariant forall l, i :: QueuedWithId(queues, levels, taskId, l, i) ==> !Earlier(l, i, level, 0)
      {
        var q := Level(queues, level);
        var i := 0;
        while i < |q|
          invariant 0 <= i <= |q|
          invariant forall l, i2 :: QueuedWithId(queues, levels, taskId, l, i2) ==> !Earlier(l, i2, level, i)
        {
          if q[i].id == taskId {
            assert FirstQueuedWithId(queues, levels, taskId, level, i);
            return q[i];
          }
          i := i + 1;
        }
        level := level + 1;
      }
      var j := 0;
      while j < |history|
        invariant 0 <= j <= |history|
        invariant forall j2 :: 0 <= j2 < j ==> history[j2].id != taskId
      {
        if history[j].id == taskId {
          return history[j];
        }
        j := j + 1;
      }
      r := null;
    }

    /** Switches the selection rule; queued and running tasks are untouched. */
    method SetStrategy(s: Strategy)
      modifies this`strategy
      ensures strategy == s
    {
      strategy := s;
    }
  }
}

# Agent task scheduler: multi-level ready queue and task records

This project models the in-memory scheduling layer of an LLM-agent task runner.

- `tasks.dfy`, module `Tasks`, models the task record. A task has a status
  (`queued`, `running`, `completed`, `failed`, `preempted`) and a type
  (`function_call`, `api_request`, `file_operation`, `custom`). A type string is
  parsed case-insensitively, and anything unrecognised becomes `custom`. The status
  mutators `start`, `complete`, `fail` and `preempt` overwrite fields whatever the
  prior status. The dependency, subtask and tag lists are insertion-ordered sets:
  an element is appended only when absent. `to_dict` takes a snapshot of the task.
- `scheduler.dfy`, module `Scheduling`, models the scheduler. It keeps one FIFO
  queue per priority level (0 is the most urgent), a map of running tasks by id, a
  history list and counters. `get_next_task` dispatches under one of four
  strategies:
  - priority-based: the front of the lowest non-empty level in `0..levels-1`;
  - round robin: the same pick, stamped with the scheduler's time slice;
  - shortest job first: the first task, in level-then-position order, with the
    smallest estimated time;
  - preemptive: falls through to priority-based selection.

  Under the preemptive strategy, `add_task` raises the current task's `preempted`
  flag when the new task is strictly more urgent. `task_completed` moves a task
  from the running map to the history and counts it as completed or failed.

`Task` and `Scheduler` are classes because the source updates them in place. The
scheduler, the worker loop and the HTTP layer all share the same task objects.
`id`, `name`, `priority`, `estimatedTime` and `taskType` are Dafny `const` fields,
because nothing in the repository assigns them after construction. The queues are
a `map<int, seq<Task>>`. A level that is not a key reads as an empty queue, which
is how the source's `defaultdict(deque)` behaves. The class invariant
`Scheduler.Valid` states four facts:

- every queued task sits in the queue of its own priority;
- every running task is filed under its own id;
- `completed + failed` never exceeds the history length;
- `total` equals the number of queued tasks plus the number of tasks dispatched so
  far. This count is a ghost field.

The scheduler never reads a task's `dependencies` or `subtasks` (src/task.py:63-64);
they are only stored and reported. Round robin only stamps the picked task with the
time slice (src/scheduler.py:83). The five statuses have no transition guards.

Numbers: `estimatedTime` and the time slice are `real`. Priorities and levels are
unbounded `int`s, as in Python. The shortest-job-first sentinel `float('inf')`
stands for "no task chosen yet" (`found.None?` in `FindShortest`).

## Model

| member | source | states |
|---|---|---|
| `Tasks.LookupStatus` | src/task.py:8-13 | calling the status enum on a string succeeds exactly for a member's value, and returns that member |
| `Tasks.LookupTaskType` | src/task.py:15-20 | calling the type enum on a string succeeds exactly for a member's value, and returns that member; otherwise it is the ValueError case |
| `Tasks.Lower` | src/task.py:39 | lower-casing keeps the length, maps each character through ASCII lower-casing, and leaves no upper-case letter |
| `Tasks.LowerIdempotent` | src/task.py:39 | lower-casing twice equals lower-casing once |
| `Tasks.ParseTaskType` | src/task.py:36-45 | a string whose lower-cased form is a member's value maps to that member; every other string maps to CUSTOM |
| `Tasks.ParseTaskTypeIgnoresCase` | src/task.py:39 | a type string and its lower-cased form parse to the same member |
| `Tasks.ParseTaskTypeOfValue` | src/task.py:39 | any string that lower-cases to a member's value parses back to that member |
| `Tasks.InsertAbsent` | src/task.py:101-117 | appends at the end only when absent: the old list is a prefix, the length grows by one exactly when the element was absent, the element set gains exactly that element, and a duplicate-free list stays duplicate-free |
| `Tasks.InsertAbsentIdempotent` | src/task.py:101-117 | inserting the same id or tag twice equals inserting it once |
| `Tasks.Task.constructor` | src/task.py:23-68 | a new task keeps its id, name, priority and estimate, and gets the parsed type and status QUEUED; result, error and time slice are None, preempted is false, and the dependency, subtask, metadata and tag collections are empty whatever was passed, because lines 67-68 overwrite lines 43 and 48 |
| `Tasks.Task.Intended` | src/task.py:36-48 | corrected constructor: the `tags` argument is kept, and an unrecognised type name is reported by `to_dict` verbatim |
| `Tasks.Task.Start` | src/task.py:70-75 | status becomes RUNNING from any status; only the status changes |
| `Tasks.Task.Complete` | src/task.py:77-84 | status becomes COMPLETED and result is set, from any status; nothing else changes |
| `Tasks.Task.Fail` | src/task.py:86-93 | status becomes FAILED and error is set, from any status; nothing else changes |
| `Tasks.Task.Preempt` | src/task.py:95-99 | status becomes PREEMPTED and the preempted flag is raised; nothing else changes |
| `Tasks.Task.AddDependency` | src/task.py:101-105 | the dependency list becomes the absent-only insertion of the id; nothing else changes |
| `Tasks.Task.AddSubtask` | src/task.py:107-111 | the subtask list becomes the absent-only insertion of the id; nothing else changes |
| `Tasks.Task.AddTag` | src/task.py:113-117 | the tag list becomes the absent-only insertion of the tag; nothing else changes |
| `Tasks.Task.ToDict` | src/task.py:119-144 | the reported status parses back to the task's status; the reported type is `custom_task_type` when that metadata key exists, otherwise a value that parses back to the task's type; lists, result, error and metadata are copied through |
| `Tasks.CustomTypeNameLost` | src/task.py:36-68 | as written, a task built with type "Research" and tag "nlp" reports type "custom" and no tags |
| `Tasks.CustomTypeNameKept` | src/task.py:36-48 | with the corrected constructor, the same task reports type "Research" and tag "nlp" |
| `Scheduling.Enqueue` | src/scheduler.py:44 | the task joins the back of its own priority level, and every other level is unchanged |
| `Scheduling.FirstNonEmpty` | src/scheduler.py:68-74 | returns the lowest level in range with a non-empty queue, with all lower levels empty; returns None exactly when every level in range is empty |
| `Scheduling.QueuedCountRemove` | src/scheduler.py:145 | the queued count is any one level's length plus the count of the other levels |
| `Scheduling.QueuedCountUpdate` | src/scheduler.py:145 | replacing one level's queue changes the queued count by the difference in lengths |
| `Scheduling.EnqueueCount` | src/scheduler.py:44-45 | adding a task raises the queued count by exactly one |
| `Scheduling.EnqueueKeepsEarlierHead` | src/scheduler.py:41-74 | a new task never overtakes the front of an equally or more urgent non-empty level: the next priority pick is unchanged |
| `Scheduling.EnqueueMoreUrgentIsNext` | src/scheduler.py:41-74 | a new in-range task more urgent than every non-empty level is the next priority pick |
| `Scheduling.DispatchRunStep` | src/scheduler.py:53-74 | n + 1 priority-based dispatches are n dispatches followed by one more call on the queues they leave, handing out the n tasks and then that call's task; so the per-call behaviour of `get_next_task` composes over any number of calls |
| `Scheduling.DispatchRunFifo` | src/scheduler.py:66-74 | equal priority is first come, first served: with no more urgent work, n dispatches hand out a level's first n tasks in the order they were added, and the rest stay queued in order |
| `Scheduling.IsShortestUnique` | src/scheduler.py:96-103 | the shortest-job-first rule (minimal time, strictly below every earlier position) picks at most one position |
| `Scheduling.IsShortestFirstOccurrence` | src/scheduler.py:98-107 | the selected position holds the first occurrence of its task in its queue, so `deque.remove` by identity removes exactly that position |
| `Scheduling.UniformTimesShortestIsHead` | src/scheduler.py:89-112 | when all estimated times in range are equal, shortest job first picks the front of the lowest non-empty level, which is the priority-based pick |
| `Scheduling.RemoveFirst` | src/scheduler.py:107 | `deque.remove` drops one element when the task is present, and changes nothing otherwise |
| `Scheduling.RemoveFirstAt` | src/scheduler.py:107 | removing the first occurrence of the task at index i removes index i and nothing else |
| `Scheduling.RemoveAtFacts` | src/scheduler.py:106-110 | removing the selected task keeps the queues filed by priority and lowers the queued count by one |
| `Scheduling.Scheduler.constructor` | src/scheduler.py:16-39 | a new scheduler has no queued, running or finished tasks, zero counters and the given levels, strategy and time slice |
| `Scheduling.Scheduler.AddTask` | src/scheduler.py:41-51 | appends the task to the back of its priority level, leaves other levels unchanged, and raises `total` by one; the current task's preempted flag is raised exactly when the strategy is preemptive, a current task exists and the new task is strictly more urgent; no other task or field changes |
| `Scheduling.Scheduler.PopFront` | src/scheduler.py:69-72 | removes a level's front task and records it as running under its id and as the current task |
| `Scheduling.Scheduler.PriorityBasedTask` | src/scheduler.py:66-74 | hands out and removes the front of the lowest non-empty level in range and records it as running and current; returns None with nothing changed exactly when all levels in range are empty |
| `Scheduling.Scheduler.RoundRobinTask` | src/scheduler.py:76-87 | the same pick as priority-based selection, and the picked task's time slice becomes the scheduler's |
| `Scheduling.Scheduler.FindShortest` | src/scheduler.py:89-103 | the scan finds the position of minimal estimated time, strictly below every earlier position in level-then-index order; it finds nothing exactly when every level in range is empty |
| `Scheduling.Scheduler.TakeAt` | src/scheduler.py:106-110 | removes exactly the task at the given position, and records it as running and current |
| `Scheduling.Scheduler.ShortestJobTask` | src/scheduler.py:89-112 | hands out the task at the shortest-job-first position and removes only that task; all other queue contents and orders are unchanged; returns None exactly when all levels in range are empty |
| `Scheduling.Scheduler.GetNextTask` | src/scheduler.py:53-64 | dispatches by strategy; preemptive uses the priority rule; a task is returned exactly when some in-range level is non-empty, and its priority is in range; a dispatch lowers the queued count by one and, for a fresh id, raises the running count by one; out-of-range levels never change; None changes neither queues nor running map |
| `Scheduling.Scheduler.TaskCompleted` | src/scheduler.py:114-125 | removes the id from the running map (a no-op if absent) and appends the task to the history; `completed` goes up exactly when the status is COMPLETED and `failed` exactly when it is FAILED; nothing else changes |
| `Scheduling.Scheduler.GetStats` | src/scheduler.py:140-148 | reports the three counters, the number of queued tasks over all levels (including levels outside the range), the number of running tasks and the strategy |
| `Scheduling.Scheduler.GetTaskById` | src/scheduler.py:150-167 | looks in the running map first, then the in-range queues in level-then-position order, then the history, and returns the first match; returns None exactly when the id is in none of them; a returned task has the requested id |
| `Scheduling.Scheduler.SetStrategy` | src/scheduler.py:169-173 | changes only the strategy |

## Findings

| source | as written | input that shows it | evidently intended | confidence | as-written member | corrected member |
|---|---|---|---|---|---|---|
| src/task.py:67 | `self.metadata = {}` runs after line 43 stored `custom_task_type`, so `to_dict` never reports a custom type name | `Task(name, payload, task_type="Research")`, then `to_dict()["task_type"]` is `"custom"` | `"Research"`, as the comments at lines 41 and 121 say | high; not executed | `Tasks.CustomTypeNameLost` | `Tasks.Task.Intended` |
| src/task.py:68 | `self.tags = []` runs after line 48 stored the `tags` argument | `Task(name, payload, tags=["nlp"])`, then `.tags` is `[]` | `["nlp"]` | high; not executed | `Tasks.CustomTypeNameLost` | `Tasks.Task.Intended` |

The scheduler receives tasks that were already built, so neither constructor is
called elsewhere in the model.

## Left out

- Timing: `wait_time`, `execution_time`, the timestamps and the running means `avg_wait_time` and `avg_execution_time` (src/task.py:51-55, 73-74, 81-92; src/scheduler.py:127-138) are floating point computed from the clock.
- `asyncio.Lock` and `async`: each scheduler method is modelled as one atomic step. So is `get_task_by_id`, which the source runs without the lock.
- `uuid4` id generation: the id is a constructor parameter. The running-count property assumes the dispatched id is not already running.
- `payload`: opaque, and never read by the core. `result` is modelled as an optional string and metadata values as strings.
- The non-string `task_type` branch (src/task.py:44-45): `TaskType` is a `str` enum, so every `TaskType` or string argument takes the parsing branch.
- Unicode lower-casing: `Lower` lower-cases ASCII letters only. The four type values contain only lower-case ASCII letters and `_`, and only two non-ASCII characters lower-case to something containing an ASCII letter: KELVIN SIGN (to `k`) and LATIN CAPITAL LETTER I WITH DOT ABOVE (to `i` followed by COMBINING DOT ABOVE). No type value contains `k` or the combining dot, so neither can lower-case into one. So parsing gives the same member either way.
- Infinite or NaN estimated times: they are not representable as `real`. In the source such a task is never picked by shortest job first.
- The empty deques that `self.queues[level]` inserts on read: the model does not add these empty entries. They change no queue contents and no count.
- `deque.remove` raising ValueError: it cannot occur, because the removed task was just found in that queue.
- Default argument values (`levels=3`, `priority=1`, `estimated_time=1.0`, `time_slice=1.0`) are not modelled; callers pass every argument.
- `Scheduling.Scheduler.SetStrategy`: does not model the returned confirmation message, because the f-string rendering of a `str` enum differs between Python versions. Strategies are limited to the four enum members.
- `Task.__repr__` (src/task.py:146-147): display formatting only.
- src/agent.py (worker coroutines, random sleeps, LLM handlers), main.py and example_client.py (HTTP routes and client), src/llm_service.py (network client), src/mcp/* and experiments/* are not part of this model. They are concurrency, I/O and third-party wrappers.

/** A unit of work of the agent scheduler: its status and type enumerations, the
    record itself with its in-place status mutators, the insertion-ordered id and
    tag lists, and its dictionary snapshot. */
module Tasks {

  datatype Option<T> = None | Some(value: T)

  /** The five states a task can be in. */
  datatype TaskStatus = Queued | Running | Completed | Failed | Preempted

  /** The four kinds of task; `Custom` also absorbs every unrecognised type string. */
  datatype TaskType = FunctionCall | ApiRequest | FileOperation | Custom

  /** The string value carried by each status member. */
  function StatusValue(s: TaskStatus): string
  {
    match s
    case Queued => "queued"
    case Running => "running"
    case Completed => "completed"
    case Failed => "failed"
    case Preempted => "preempted"
  }

  /** The string value carried by each type member. */
  function TypeValue(t: TaskType): string
  {
    match t
    case FunctionCall => "function_call"
    case ApiRequest => "api_request"
    case FileOperation => "file_operation"
    case Custom => "custom"
  }

  /** Calling the enumeration on a string, `TaskStatus(s)`: the member whose value is
      `s`, or None where the enumeration raises ValueError. */
  function LookupStatus(s: string): (r: Option<TaskStatus>)
    ensures forall st :: r == Some(st) <==> StatusValue(st) == s
  {
    if s == "queued" then Some(Queued)
    else if s == "running" then Some(Running)
    else if s == "completed" then Some(Completed)
    else if s == "failed" then Some(Failed)
    else if s == "preempted" then Some(Preempted)
    else None
  }

  /** Calling the enumeration on a string, `TaskType(s)`: the member whose value is
      `s`, or None where the enumeration raises ValueError. */
  function LookupTaskType(s: string): (r: Option<TaskType>)
    ensures forall t :: r == Some(t) <==> TypeValue(t) == s
  {
    if s == "function_call" then Some(FunctionCall)
    else if s == "api_request" then Some(ApiRequest)
    else if s == "file_operation" then Some(FileOperation)
    else if s == "custom" then Some(Custom)
    else None
  }

  predicate IsUpper(c: char) { 'A' <= c <= 'Z' }

  function LowerChar(c: char): char
  {
    if IsUpper(c) then (c as int - 'A' as int + 'a' as int) as char else c
  }

  /** `str.lower()` restricted to ASCII letters. The type values contain only
      lower-case ASCII letters and '_'. The only other characters whose lower-case
      form contains an ASCII letter are KELVIN SIGN (to 'k', which no value contains)
      and LATIN CAPITAL LETTER I WITH DOT ABOVE (to 'i' and COMBINING DOT ABOVE, which
      no value contains). So comparing the result with a type value is the same as
      with full Unicode lower-casing. */
  function Lower(s: string): (r: string)
    ensures |r| == |s|
    ensures forall i :: 0 <= i < |s| ==> r[i] == LowerChar(s[i])
    ensures forall i :: 0 <= i < |r| ==> !IsUpper(r[i])
  {
    if s == [] then [] else [LowerChar(s[0])] + Lower(s[1..])
  }

  /** Lower-casing twice changes nothing more than lower-casing once. */
  lemma LowerIdempotent(s: string)
    ensures Lower(Lower(s)) == Lower(s)
  {
  }

  /** The type the constructor assigns for a type string: the member whose value is
      the lower-cased string, and CUSTOM when no member has that value. */
  function ParseTaskType(s: string): (t: TaskType)
    ensures forall u :: TypeValue(u) == Lower(s) ==> t == u
    ensures t != Custom ==> TypeValue(t) == Lower(s)
    ensures (forall u :: TypeValue(u) != Lower(s)) ==> t == Custom
    ensures Lower(s) == "custom" ==> t == Custom
  {
    match LookupTaskType(Lower(s))
    case Some(t) => t
    case None => Custom
  }

  /** Parsing ignores letter case: a string and its lower-cased form parse alike. */
  lemma ParseTaskTypeIgnoresCase(s: string)
    ensures ParseTaskType(s) == ParseTaskType(Lower(s))
  {
  }

  /** Every member's own value, in any letter case, parses back to that member. */
  lemma ParseTaskTypeOfValue(t: TaskType, s: string)
    requires Lower(s) == TypeValue(t)
    ensures ParseTaskType(s) == t
  {
  }

  /** The list contains no element twice. */
  predicate NoDuplicates(xs: seq<string>)
  {
    forall i, j :: 0 <= i < j < |xs| ==> xs[i] != xs[j]
  }

  /** A list used as an insertion-ordered set: `x` joins at the end unless it is
      already there. */
  function InsertAbsent(xs: seq<string>, x: string): (r: seq<string>)
    ensures x in r
    ensures forall y :: y in r <==> y in xs || y == x
    ensures xs <= r
    ensures |r| == if x in xs then |xs| else |xs| + 1
    ensures NoDuplicates(xs) ==> NoDuplicates(r)
  {
    if x in xs then xs else xs + [x]
  }

  /** Inserting the same element twice is the same as inserting it once. */
  lemma InsertAbsentIdempotent(xs: seq<string>, x: string)
    ensures InsertAbsent(InsertAbsent(xs, x), x) == InsertAbsent(xs, x)
  {
  }

  /** The dictionary snapshot of a task, without its timestamps and durations. */
  datatype TaskView = TaskView(
    id: string,
    name: string,
    priority: int,
    status: string,
    taskType: string,
    estimatedTime: real,
    result: Option<string>,
    error: Option<string>,
    tags: seq<string>,
    dependencies: seq<string>,
    subtasks: seq<string>,
    metadata: map<string, string>)

  const CustomTypeKey := "custom_task_type"

  class Task {
    const id: string
    const name: string
    /** 0 is the most urgent level. */
    const priority: int
    const estimatedTime: real
    const taskType: TaskType
    var status: TaskStatus
    var result: Option<string>
    var error: Option<string>
    var timeSlice: Option<real>
    var preempted: bool
    var dependencies: seq<string>
    var subtasks: seq<string>
    var metadata: map<string, string>
    var tags: seq<string>

    /** The constructor as written: the custom type name stored in `metadata` and the
        `tags` argument are both overwritten by the empty values assigned last. */
    constructor (id: string, name: string, priority: int, taskTypeName: string,
                 estimatedTime: real, tags: Option<seq<string>>)
      ensures this.id == id && this.name == name && this.priority == priority
      ensures this.estimatedTime == estimatedTime
      ensures taskType == ParseTaskType(taskTypeName)
      ensures status == Queued && result == None && error == None
      ensures timeSlice == None && !preempted
      ensures dependencies == [] && subtasks == []
      ensures metadata == map[] && this.tags == []
    {
      this.id := id;
      this.name := name;
      this.priority := priority;
      status := Queued;
      result := None;
      error := None;
      match LookupTaskType(Lower(taskTypeName)) {
        case Some(t) =>
          taskType := t;
        case None =>
          taskType := Custom;
          metadata := map[CustomTypeKey := taskTypeName];
      }
      this.tags := if tags.Some? then tags.value else [];
      this.estimatedTime := estimatedTime;
      timeSlice := None;
      preempted := false;
      dependencies := [];
      subtasks := [];
      metadata := map[];
      this.tags := [];
    }

    /** The constructor as its comments describe it: an unrecognised type name is kept
        under `custom_task_type`, and the `tags` argument is kept. */
    constructor Intended(id: string, name: string, priority: int, taskTypeName: string,
                         estimatedTime: real, tags: Option<seq<string>>)
      ensures this.id == id && this.name == name && this.priority == priority
      ensures this.estimatedTime == estimatedTime
      ensures taskType == ParseTaskType(taskTypeName)
      ensures status == Queued && result == None && error == None
      ensures timeSlice == None && !preempted
      ensures dependencies == [] && subtasks == []
      ensures this.tags == if tags.Some? then tags.value else []
      ensures ToDict().taskType ==
                if LookupTaskType(Lower(taskTypeName)).Some? then TypeValue(taskType) else taskTypeName
    {
      this.id := id;
      this.name := name;
      this.priority := priority;
      status := Queued;
      result := None;
      error := None;
      match LookupTaskType(Lower(taskTypeName)) {
        case Some(t) =>
          taskType := t;
          metadata := map[];
        case None =>
          taskType := Custom;
          metadata := map[CustomTypeKey := taskTypeName];
      }
      this.tags := if tags.Some? then tags.value else [];
      this.estimatedTime := estimatedTime;
      timeSlice := None;
      preempted := false;
      dependencies := [];
      subtasks := [];
    }

    /** Marks the task running, whatever its status was. */
    method Start()
      modifies this`status
      ensures status == Running
    {
      status := Running;
    }

    /** Marks the task completed with result `r`, whatever its status was. */
    method Complete(r: Option<string>)
      modifies this`status, this`result
      ensures status == Completed && result == r
    {
      status := Completed;
      result := r;
    }

    /** Marks the task failed with error `e`, whatever its status was. */
    method Fail(e: string)
      modifies this`status, this`error
      ensures status == Failed && error == Some(e)
    {
      status := Failed;
      error := Some(e);
    }

    /** Marks the task preempted and raises its preempted flag. */
    method Preempt()
      modifies this`status, this`preempted
      ensures status == Preempted && preempted
    {
      status := Preempted;
      preempted := true;
    }

    method AddDependency(taskId: string)
      modifies this`dependencies
      ensures dependencies == InsertAbsent(old(dependencies), taskId)
    {
      if taskId !in dependencies {
        dependencies := dependencies + [taskId];
      }
    }

    method AddSubtask(taskId: string)
      modifies this`subtasks
      ensures subtasks == InsertAbsent(old(subtasks), taskId)
    {
      if taskId !in subtasks {
        subtasks := subtasks + [taskId];
      }
    }

    method AddTag(tag: string)
      modifies this`tags
      ensures tags == InsertAbsent(old(tags), tag)
    {
      if tag !in tags {
        tags := tags + [tag];
      }
    }

    /** The snapshot: a custom type name recorded in the metadata is reported instead of
        the member's value, and the enumerations are reported by their values. */
    function ToDict(): (d: TaskView)
      reads this
      ensures d.id == id && d.name == name && d.priority == priority
      ensures LookupStatus(d.status) == Some(status)
      ensures CustomTypeKey in metadata ==> d.taskType == metadata[CustomTypeKey]
      ensures CustomTypeKey !in metadata ==> LookupTaskType(d.taskType) == Some(taskType)
      ensures d.result == result && d.error == error && d.estimatedTime == estimatedTime
      ensures d.tags == tags && d.dependencies == dependencies && d.subtasks == subtasks
      ensures d.metadata == metadata
    {
      var reportedType :=
        if CustomTypeKey in metadata then metadata[CustomTypeKey] else TypeValue(taskType);
      TaskView(id, name, priority, StatusValue(status), reportedType, estimatedTime,
               result, error, tags, dependencies, subtasks, metadata)
    }
  }

  /** A task built by the constructor as written with an unrecognised type name and a
      tag reports the type "custom" and no tags. */
  method CustomTypeNameLost() returns (d: TaskView)
    ensures d.taskType == "custom" && d.tags == []
  {
    var t := new Task("t-1", "survey", 1, "Research", 1.0, Some(["nlp"]));
    d := t.ToDict();
  }

  /** Built by the intended constructor, the same task reports its own type name and
      its tag. */
  method CustomTypeNameKept() returns (d: TaskView)
    ensures d.taskType == "Research" && d.tags == ["nlp"]
  {
    var t := new Task.Intended("t-1", "survey", 1, "Research", 1.0, Some(["nlp"]));
    d := t.ToDict();
  }
}

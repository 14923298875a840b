/** The task vocabulary shared by the extraction route, the board, the client
    cache and the edit form: two three-valued enumerations, the `Task` record
    and the two input shapes (creation, sparse update). */
module TaskTypes {
  import opened Wrappers

  /** The board column a task is in. */
  datatype TaskStatus = Todo | InProgress | Done

  datatype Priority = High | Medium | Low

  /** A server-assigned creation or modification instant, carried along and
      never inspected. */
  datatype Timestamp = Timestamp(millis: int)

  /** A persisted task. `description` and `assignee` are nullable; `status`
      and `priority` always hold a value of their enumeration. */
  datatype Task = Task(
    id: string,
    title: string,
    description: Option<string>,
    status: TaskStatus,
    priority: Priority,
    assignee: Option<string>,
    createdAt: Timestamp,
    updatedAt: Timestamp)

  /** The user-editable part of a task: everything except the id and the
      server-managed timestamps. */
  datatype TaskData = TaskData(
    title: string,
    description: Option<string>,
    status: TaskStatus,
    priority: Priority,
    assignee: Option<string>)

  /** An optional property of an input object: not sent at all, or sent with
      a value. For a nullable field the value may itself be `None` (an explicit
      `null`), which is a different thing from `Absent`. */
  datatype Field<+T> = Absent | Present(value: T)

  /** Input for creating a task: only `title` is required. */
  datatype CreateTaskInput = CreateTaskInput(
    title: string,
    description: Field<Option<string>>,
    status: Field<TaskStatus>,
    priority: Field<Priority>,
    assignee: Field<Option<string>>)

  /** A sparse update: every field may be absent. */
  datatype UpdateTaskInput = UpdateTaskInput(
    title: Field<string>,
    description: Field<Option<string>>,
    status: Field<TaskStatus>,
    priority: Field<Priority>,
    assignee: Field<Option<string>>)

  const NoUpdates := UpdateTaskInput(Absent, Absent, Absent, Absent, Absent)

  /** The wire name of a status, which is also the id of its board column. */
  function StatusName(s: TaskStatus): string
  {
    match s
    case Todo => "todo"
    case InProgress => "in-progress"
    case Done => "done"
  }

  /** The status a wire name denotes: exactly the three names are accepted. */
  function ParseStatus(name: string): (r: Option<TaskStatus>)
    ensures r.Some? <==> name == "todo" || name == "in-progress" || name == "done"
    ensures r.Some? ==> StatusName(r.value) == name
  {
    if name == "todo" then Some(Todo)
    else if name == "in-progress" then Some(InProgress)
    else if name == "done" then Some(Done)
    else None
  }

  function PriorityName(p: Priority): string
  {
    match p
    case High => "high"
    case Medium => "medium"
    case Low => "low"
  }

  /** The priority a wire name denotes: exactly the three names are accepted. */
  function ParsePriority(name: string): (r: Option<Priority>)
    ensures r.Some? <==> name == "high" || name == "medium" || name == "low"
    ensures r.Some? ==> PriorityName(r.value) == name
  {
    if name == "high" then Some(High)
    else if name == "medium" then Some(Medium)
    else if name == "low" then Some(Low)
    else None
  }

  /** Every status has a distinct name that parses back to it. */
  lemma StatusNameRoundTrip(s: TaskStatus)
    ensures ParseStatus(StatusName(s)) == Some(s)
  {
  }

  /** Every priority has a distinct name that parses back to it. */
  lemma PriorityNameRoundTrip(p: Priority)
    ensures ParsePriority(PriorityName(p)) == Some(p)
  {
  }

  function Fields(t: Task): TaskData
  {
    TaskData(t.title, t.description, t.status, t.priority, t.assignee)
  }

  /** What a sparse update means for a task's fields: an absent field is left
      as it was, a present one (an explicit null included) replaces it. */
  function ApplyUpdate(d: TaskData, u: UpdateTaskInput): (r: TaskData)
    ensures u.title.Present? ==> r.title == u.title.value
    ensures u.title.Absent? ==> r.title == d.title
    ensures u.description.Present? ==> r.description == u.description.value
    ensures u.description.Absent? ==> r.description == d.description
    ensures u.status.Present? ==> r.status == u.status.value
    ensures u.status.Absent? ==> r.status == d.status
    ensures u.priority.Present? ==> r.priority == u.priority.value
    ensures u.priority.Absent? ==> r.priority == d.priority
    ensures u.assignee.Present? ==> r.assignee == u.assignee.value
    ensures u.assignee.Absent? ==> r.assignee == d.assignee
  {
    TaskData(
      Choose(u.title, d.title),
      Choose(u.description, d.description),
      Choose(u.status, d.status),
      Choose(u.priority, d.priority),
      Choose(u.assignee, d.assignee))
  }

  function Choose<T>(f: Field<T>, current: T): T
  {
    if f.Present? then f.value else current
  }

  /** An update with every field absent changes nothing. */
  lemma NoUpdatesIsIdentity(d: TaskData)
    ensures ApplyUpdate(d, NoUpdates) == d
  {
  }

  /** Applying the same update twice is the same as applying it once. */
  lemma ApplyUpdateIdempotent(d: TaskData, u: UpdateTaskInput)
    ensures ApplyUpdate(ApplyUpdate(d, u), u) == ApplyUpdate(d, u)
  {
  }

  /** For a nullable field, "absent" keeps the stored value while an explicit
      null clears it. */
  lemma AbsentDiffersFromNull(d: TaskData, u: UpdateTaskInput)
    requires d.description.Some?
    ensures u.description == Absent ==> ApplyUpdate(d, u).description == d.description
    ensures u.description == Present(None) ==> ApplyUpdate(d, u).description == None
  {
  }
}

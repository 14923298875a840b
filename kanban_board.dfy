/** The board's rules: its three columns, the grouping of the task list into
    one bucket per status, and the resolution of a drop into at most one
    status update. */
module KanbanBoard {
  import opened Wrappers
  import opened TaskTypes
  import opened Sequences

  datatype Column = Column(id: TaskStatus, title: string)

  /** The board's columns, left to right. */
  const Columns: seq<Column> := [Column(Todo, "To Do"), Column(InProgress, "In Progress"), Column(Done, "Done")]

  /** The board has exactly one column per status. */
  lemma OneColumnPerStatus(s: TaskStatus)
    ensures exists k :: 0 <= k < |Columns| && Columns[k].id == s
    ensures forall j, k :: 0 <= j < k < |Columns| ==> Columns[j].id != Columns[k].id
  {
    match s
    case Todo => assert Columns[0].id == s;
    case InProgress => assert Columns[1].id == s;
    case Done => assert Columns[2].id == s;
  }

  /** The tasks of `tasks` whose status is `s`, in list order. */
  function ByStatus(tasks: seq<Task>, s: TaskStatus): seq<Task>
  {
    if tasks == [] then []
    else
      var last := tasks[|tasks| - 1];
      ByStatus(tasks[..|tasks| - 1], s) + (if last.status == s then [last] else [])
  }

  /** One bucket of tasks per status. */
  datatype Buckets = Buckets(todo: seq<Task>, inProgress: seq<Task>, done: seq<Task>)
  {
    function Get(s: TaskStatus): seq<Task>
    {
      match s
      case Todo => todo
      case InProgress => inProgress
      case Done => done
    }

    /** The bucket of the task's status with the task appended. */
    function Push(t: Task): (b: Buckets)
      ensures b.Get(t.status) == Get(t.status) + [t]
      ensures forall s :: s != t.status ==> b.Get(s) == Get(s)
    {
      match t.status
      case Todo => this.(todo := todo + [t])
      case InProgress => this.(inProgress := inProgress + [t])
      case Done => this.(done := done + [t])
    }
  }

  const NoBuckets := Buckets([], [], [])

  /** The grouping effect: every task is pushed onto the bucket of its status,
      in list order. */
  method GroupByStatus(tasks: seq<Task>) returns (grouped: Buckets)
    ensures forall s :: grouped.Get(s) == ByStatus(tasks, s)
  {
    grouped := NoBuckets;
    for i := 0 to |tasks|
      invariant forall s :: grouped.Get(s) == ByStatus(tasks[..i], s)
    {
      assert tasks[..i + 1][..i] == tasks[..i];
      grouped := grouped.Push(tasks[i]);
    }
    assert tasks[..|tasks|] == tasks;
  }

  /** A task is in a bucket exactly when it is in the list and has that
      bucket's status. */
  lemma {:induction false} ByStatusMembers(tasks: seq<Task>, s: TaskStatus, t: Task)
    ensures t in ByStatus(tasks, s) <==> t in tasks && t.status == s
  {
    if tasks != [] {
      var front := tasks[..|tasks| - 1];
      ByStatusMembers(front, s, t);
      assert tasks == front + [tasks[|tasks| - 1]];
    }
  }

  /** How the buckets grow when one task is appended to the list. */
  lemma ByStatusSnoc(front: seq<Task>, last: Task, s: TaskStatus)
    ensures ByStatus(front + [last], s) == ByStatus(front, s) + (if last.status == s then [last] else [])
  {
    assert (front + [last])[..|front + [last]| - 1] == front;
  }

  /** The sizes of the three buckets add up to the length of the list. */
  lemma {:induction false} ByStatusSizes(tasks: seq<Task>)
    ensures |ByStatus(tasks, Todo)| + |ByStatus(tasks, InProgress)| + |ByStatus(tasks, Done)| == |tasks|
  {
    if tasks != [] {
      var front, last := tasks[..|tasks| - 1], tasks[|tasks| - 1];
      assert tasks == front + [last];
      ByStatusSizes(front);
      ByStatusSnoc(front, last, Todo);
      ByStatusSnoc(front, last, InProgress);
      ByStatusSnoc(front, last, Done);
    }
  }

  /** The three buckets together hold every task of the list exactly as often
      as the list does. */
  lemma {:induction false} ByStatusPartition(tasks: seq<Task>)
    ensures multiset(ByStatus(tasks, Todo)) + multiset(ByStatus(tasks, InProgress)) + multiset(ByStatus(tasks, Done))
            == multiset(tasks)
  {
    if tasks != [] {
      var front, last := tasks[..|tasks| - 1], tasks[|tasks| - 1];
      assert tasks == front + [last];
      ByStatusPartition(front);
      ByStatusSnoc(front, last, Todo);
      ByStatusSnoc(front, last, InProgress);
      ByStatusSnoc(front, last, Done);
      assert multiset(tasks) == multiset(front) + multiset{last};
    }
  }

  /** Within a bucket, tasks keep their relative order from the list. */
  lemma {:induction false} ByStatusKeepsOrder(tasks: seq<Task>, s: TaskStatus)
    ensures IsSubsequence(ByStatus(tasks, s), tasks)
  {
    if tasks != [] {
      var front, last := tasks[..|tasks| - 1], tasks[|tasks| - 1];
      ByStatusKeepsOrder(front, s);
      assert tasks == front + [last];
      if last.status == s {
        assert ByStatus(tasks, s) == ByStatus(front, s) + [last];
        SubsequenceSnoc(ByStatus(front, s), front, last);
      } else {
        assert ByStatus(tasks, s) == ByStatus(front, s);
        SubsequenceExtend(ByStatus(front, s), front, last);
      }
    }
  }

  /** `tasks.find`: the first task with the given id. */
  function FindById(tasks: seq<Task>, id: string): (r: Option<Task>)
    ensures r.None? <==> forall k :: 0 <= k < |tasks| ==> tasks[k].id != id
    ensures r.Some? ==> r.value in tasks && r.value.id == id
    ensures r.Some? ==> exists k :: 0 <= k < |tasks| && tasks[k] == r.value
                                  && forall j :: 0 <= j < k ==> tasks[j].id != id
  {
    if tasks == [] then None
    else if tasks[0].id == id then Some(tasks[0])
    else
      var r := FindById(tasks[1..], id);
      assert forall k :: 1 <= k < |tasks| ==> tasks[k] == tasks[1..][k - 1];
      r
  }

  /** `columns.some(col => col.id === id)`, read as that column's status. */
  function ColumnStatus(id: string): (r: Option<TaskStatus>)
    ensures r.Some? <==> exists k :: 0 <= k < |Columns| && StatusName(Columns[k].id) == id
    ensures r.Some? ==> StatusName(r.value) == id
  {
    var r := ParseStatus(id);
    assert StatusName(Columns[0].id) == "todo";
    assert StatusName(Columns[1].id) == "in-progress";
    assert StatusName(Columns[2].id) == "done";
    r
  }

  /** The status a drop target stands for: a column's own status, or the
      current status of the card dropped on; none for an unknown target. */
  function TargetStatus(tasks: seq<Task>, overId: string): (r: Option<TaskStatus>)
    ensures r.None? <==> ColumnStatus(overId).None? && forall k :: 0 <= k < |tasks| ==> tasks[k].id != overId
    ensures r.Some? ==> || StatusName(r.value) == overId
                        || exists k :: 0 <= k < |tasks| && tasks[k].id == overId && tasks[k].status == r.value
  {
    if ColumnStatus(overId).Some? then ColumnStatus(overId)
    else
      match FindById(tasks, overId)
      case Some(target) => Some(target.status)
      case None => None
  }

  /** The status update a drop issues. */
  datatype StatusUpdate = StatusUpdate(taskId: string, status: TaskStatus)

  /** The decision taken when a drag ends: at most one update, for the dragged
      task, to the drop target's status, and only when that status differs
      from the task's own. */
  function ResolveDrop(tasks: seq<Task>, activeId: string, overId: Option<string>): (r: Option<StatusUpdate>)
    ensures overId.None? ==> r.None?
    ensures FindById(tasks, activeId).None? ==> r.None?
    ensures r.Some? ==> && r.value.taskId == activeId
                        && FindById(tasks, activeId).Some?
                        && overId.Some?
                        && TargetStatus(tasks, overId.value) == Some(r.value.status)
                        && r.value.status != FindById(tasks, activeId).value.status
    ensures && overId.Some? && FindById(tasks, activeId).Some?
            && TargetStatus(tasks, overId.value).Some?
            && TargetStatus(tasks, overId.value).value != FindById(tasks, activeId).value.status
            ==> r.Some?
  {
    match overId
    case None => None
    case Some(over) =>
      match FindById(tasks, activeId)
      case None => None
      case Some(task) =>
        var newStatus := TargetStatus(tasks, over);
        if newStatus.Some? && newStatus.value != task.status then Some(StatusUpdate(activeId, newStatus.value))
        else None
  }

  /** Dropping on a column moves the task to that column's status, and issues
      nothing when the task is already there. */
  lemma DropOnColumn(tasks: seq<Task>, activeId: string, column: TaskStatus)
    requires FindById(tasks, activeId).Some?
    ensures ResolveDrop(tasks, activeId, Some(StatusName(column)))
         == if column == FindById(tasks, activeId).value.status then None
            else Some(StatusUpdate(activeId, column))
  {
    StatusNameRoundTrip(column);
  }

  /** Dropping on a card (whose id is not a column id) moves the task to the
      card's current status; a target that is neither a column nor a known
      task issues nothing. */
  lemma DropOnCard(tasks: seq<Task>, activeId: string, overId: string)
    requires FindById(tasks, activeId).Some?
    requires ColumnStatus(overId).None?
    ensures FindById(tasks, overId).None? ==> ResolveDrop(tasks, activeId, Some(overId)).None?
    ensures FindById(tasks, overId).Some? ==>
              var target := FindById(tasks, overId).value;
              ResolveDrop(tasks, activeId, Some(overId))
                == if target.status == FindById(tasks, activeId).value.status then None
                   else Some(StatusUpdate(activeId, target.status))
  {
  }

  /** Dropping a card onto itself issues nothing, as long as its id is not
      also a column id. */
  lemma DropOnItself(tasks: seq<Task>, activeId: string)
    requires ColumnStatus(activeId).None?
    ensures ResolveDrop(tasks, activeId, Some(activeId)).None?
  {
  }

  /** The board component: the task list it is given, the buckets its effect
      computes from it, and the task being dragged. */
  class Board {
    var tasks: seq<Task>
    var tasksByStatus: Buckets
    var activeTask: Option<Task>

    /** Mounting the board runs the grouping effect on its tasks. */
    constructor (tasks: seq<Task>)
      ensures this.tasks == tasks && activeTask == None
      ensures forall s :: tasksByStatus.Get(s) == ByStatus(tasks, s)
    {
      var grouped := GroupByStatus(tasks);
      this.tasks := tasks;
      activeTask := None;
      tasksByStatus := grouped;
    }

    /** A new task list re-runs the grouping effect. */
    method SetTasks(tasks: seq<Task>)
      modifies this
      ensures this.tasks == tasks && activeTask == old(activeTask)
      ensures forall s :: tasksByStatus.Get(s) == ByStatus(tasks, s)
    {
      this.tasks := tasks;
      var grouped := GroupByStatus(tasks);
      tasksByStatus := grouped;
    }

    /** A drag starts: the dragged task, if it is in the list. */
    method DragStart(activeId: string)
      modifies this`activeTask
      ensures activeTask == FindById(tasks, activeId)
    {
      activeTask := FindById(tasks, activeId);
    }

    /** A drag ends over `overId` (none when dropped outside every target).
        The update it issues is awaited; `updateRaises` says whether that
        update throws. When it does, the exception leaves the handler before
        the final reset, so `activeTask` keeps its value; on every other path
        it is cleared. */
    method DragEnd(activeId: string, overId: Option<string>, updateRaises: bool)
      returns (issued: Option<StatusUpdate>, raised: bool)
      modifies this`activeTask
      ensures issued == ResolveDrop(tasks, activeId, overId)
      ensures raised <==> issued.Some? && updateRaises
      ensures activeTask == if raised then old(activeTask) else None
    {
      issued, raised := None, false;
      if overId.None? {
        activeTask := None;
        return;
      }
      var task := FindById(tasks, activeId);
      if task.None? {
        activeTask := None;
        return;
      }
      var newStatus: Option<TaskStatus> := None;
      if ColumnStatus(overId.value).Some? {
        newStatus := ColumnStatus(overId.value);
      } else {
        var targetTask := FindById(tasks, overId.value);
        if targetTask.Some? {
          newStatus := Some(targetTask.value.status);
        }
      }
      if newStatus.Some? && newStatus.value != task.value.status {
        issued := Some(StatusUpdate(activeId, newStatus.value));
        if updateRaises {
          raised := true;
          return;
        }
      }
      activeTask := None;
    }
  }
}

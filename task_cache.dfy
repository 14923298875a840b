/** The client-side task cache: the list of tasks with its loading and error
    flags, kept in step with the server by a full fetch and by replacing or
    removing single records after a confirmed update or delete. Each server
    call is one atomic step whose reply is given. */
module TaskCache {
  import opened Wrappers
  import opened TaskTypes
  import opened Sequences

  /** The request a cache operation sends. */
  datatype Request = FetchAll | Patch(id: string, body: UpdateTaskInput) | Delete(id: string)

  /** The reply to the list fetch: the list, a non-ok status, or an exception
      (a network failure or an unreadable body) with its message. */
  datatype FetchReply = Listed(tasks: seq<Task>) | FetchNotOk | FetchThrew(message: string)

  /** The reply to a PATCH: the server's record, a non-ok status, or an
      exception with its message. */
  datatype UpdateReply = Updated(record: Task) | UpdateNotOk | UpdateThrew(message: string)

  /** The reply to a DELETE. */
  datatype DeleteReply = Deleted | DeleteNotOk | DeleteThrew(message: string)

  /** How an update or delete ends for its caller: normally, or by raising
      the error with this message. */
  datatype Outcome = Completed | Raised(message: string)

  const FetchFailed := "Failed to fetch tasks"
  const StatusUpdateFailed := "Failed to update task status"
  const UpdateFailed := "Failed to update task"
  const DeleteFailed := "Failed to delete task"

  /** `tasks.map(task => task.id === id ? record : task)`. */
  function ReplaceById(tasks: seq<Task>, id: string, record: Task): (r: seq<Task>)
    ensures |r| == |tasks|
  {
    if tasks == [] then []
    else [if tasks[0].id == id then record else tasks[0]] + ReplaceById(tasks[1..], id, record)
  }

  /** `tasks.filter(task => task.id !== id)`. */
  function RemoveById(tasks: seq<Task>, id: string): (r: seq<Task>)
    ensures |r| <= |tasks|
    ensures forall k :: 0 <= k < |r| ==> r[k].id != id
  {
    if tasks == [] then []
    else (if tasks[0].id == id then [] else [tasks[0]]) + RemoveById(tasks[1..], id)
  }

  /** Replacing keeps the length and the order; an entry with the id becomes
      the record and every other entry stays as it was. */
  lemma {:induction false} ReplaceByIdAt(tasks: seq<Task>, id: string, record: Task)
    ensures |ReplaceById(tasks, id, record)| == |tasks|
    ensures forall k :: 0 <= k < |tasks| ==>
              ReplaceById(tasks, id, record)[k] == if tasks[k].id == id then record else tasks[k]
  {
    if tasks != [] {
      ReplaceByIdAt(tasks[1..], id, record);
    }
  }

  /** An id that is not cached leaves the list unchanged. */
  lemma {:induction false} ReplaceUnknownId(tasks: seq<Task>, id: string, record: Task)
    requires forall k :: 0 <= k < |tasks| ==> tasks[k].id != id
    ensures ReplaceById(tasks, id, record) == tasks
  {
    if tasks != [] {
      ReplaceUnknownId(tasks[1..], id, record);
    }
  }

  /** Removing keeps exactly the entries with another id. */
  lemma {:induction false} RemoveByIdMembers(tasks: seq<Task>, id: string, t: Task)
    ensures t in RemoveById(tasks, id) <==> t in tasks && t.id != id
  {
    if tasks != [] {
      RemoveByIdMembers(tasks[1..], id, t);
      assert tasks == [tasks[0]] + tasks[1..];
    }
  }

  /** Removing keeps the remaining entries in their order. */
  lemma {:induction false} RemoveByIdKeepsOrder(tasks: seq<Task>, id: string)
    ensures IsSubsequence(RemoveById(tasks, id), tasks)
  {
    if tasks != [] {
      var front, last := tasks[..|tasks| - 1], tasks[|tasks| - 1];
      RemoveByIdKeepsOrder(front, id);
      RemoveByIdSnoc(front, last, id);
      assert tasks == front + [last];
      if last.id == id {
        assert RemoveById(tasks, id) == RemoveById(front, id);
        SubsequenceExtend(RemoveById(front, id), front, last);
      } else {
        assert RemoveById(tasks, id) == RemoveById(front, id) + [last];
        SubsequenceSnoc(RemoveById(front, id), front, last);
      }
    }
  }

  /** Removing drops every occurrence of an entry with the id and keeps every
      occurrence of any other entry. */
  lemma {:induction false} RemoveByIdCounts(tasks: seq<Task>, id: string, t: Task)
    ensures multiset(RemoveById(tasks, id))[t] == if t.id == id then 0 else multiset(tasks)[t]
  {
    if tasks != [] {
      RemoveByIdCounts(tasks[1..], id, t);
      assert tasks == [tasks[0]] + tasks[1..];
    }
  }

  /** Removing from a list with one more entry at the end. */
  lemma {:induction false} RemoveByIdSnoc(front: seq<Task>, last: Task, id: string)
    ensures RemoveById(front + [last], id) == RemoveById(front, id) + (if last.id == id then [] else [last])
  {
    if front != [] {
      assert (front + [last])[1..] == front[1..] + [last];
      RemoveByIdSnoc(front[1..], last, id);
    }
  }

  /** Deleting the same id a second time changes nothing. */
  lemma {:induction false} RemoveByIdIdempotent(tasks: seq<Task>, id: string)
    ensures RemoveById(RemoveById(tasks, id), id) == RemoveById(tasks, id)
  {
    if tasks != [] {
      var rest := RemoveById(tasks[1..], id);
      RemoveByIdIdempotent(tasks[1..], id);
      if tasks[0].id != id {
        var kept := [tasks[0]] + rest;
        assert RemoveById(tasks, id) == kept;
        assert kept[0] == tasks[0] && kept[1..] == rest;
        assert RemoveById(kept, id) == [tasks[0]] + RemoveById(rest, id);
      } else {
        assert RemoveById(tasks, id) == rest;
      }
    }
  }

  /** The body of the status update: `status` and nothing else. */
  function StatusOnly(status: TaskStatus): (u: UpdateTaskInput)
    ensures u.status == Present(status)
    ensures u == NoUpdates.(status := Present(status))
  {
    UpdateTaskInput(Absent, Absent, Present(status), Absent, Absent)
  }

  /** The status update changes a record's status and nothing else. */
  lemma StatusOnlyChangesStatus(d: TaskData, status: TaskStatus)
    ensures ApplyUpdate(d, StatusOnly(status)) == d.(status := status)
  {
  }

  /** The state of the `useTasks` hook. */
  class Cache {
    var tasks: seq<Task>
    var loading: bool
    var error: Option<string>

    /** The initial state, before the mount effect's first fetch ends. */
    constructor ()
      ensures tasks == [] && loading && error == None
    {
      tasks, loading, error := [], true, None;
    }

    /** `fetchTasks`: on success the whole list is replaced and `error` stays
        null; on failure `error` is set and the old list kept; `loading` is
        false afterwards either way. */
    method FetchTasks(reply: FetchReply) returns (request: Request)
      modifies this
      ensures request == FetchAll
      ensures !loading
      ensures reply.Listed? ==> tasks == reply.tasks && error == None
      ensures reply.FetchNotOk? ==> tasks == old(tasks) && error == Some(FetchFailed)
      ensures reply.FetchThrew? ==> tasks == old(tasks) && error == Some(reply.message)
    {
      loading := true;
      error := None;
      request := FetchAll;
      match reply {
        case Listed(list) => tasks := list;
        case FetchNotOk => error := Some(FetchFailed);
        case FetchThrew(message) => error := Some(message);
      }
      loading := false;
    }

    /** `updateTaskStatus`: sends only the status; on success the cached
        entries with the id are replaced by the server's record; on failure
        the list is kept and the error raised. */
    method UpdateTaskStatus(taskId: string, status: TaskStatus, reply: UpdateReply)
      returns (request: Request, outcome: Outcome)
      modifies this`tasks
      ensures request == Patch(taskId, StatusOnly(status))
      ensures reply.Updated? ==> tasks == ReplaceById(old(tasks), taskId, reply.record) && outcome == Completed
      ensures reply.UpdateNotOk? ==> tasks == old(tasks) && outcome == Raised(StatusUpdateFailed)
      ensures reply.UpdateThrew? ==> tasks == old(tasks) && outcome == Raised(reply.message)
    {
      request := Patch(taskId, StatusOnly(status));
      outcome := ApplyReply(taskId, reply, StatusUpdateFailed);
    }

    /** `updateTask`: sends the updates verbatim, with the same replacement
        and failure behaviour as the status update. */
    method UpdateTask(taskId: string, updates: UpdateTaskInput, reply: UpdateReply)
      returns (request: Request, outcome: Outcome)
      modifies this`tasks
      ensures request == Patch(taskId, updates)
      ensures reply.Updated? ==> tasks == ReplaceById(old(tasks), taskId, reply.record) && outcome == Completed
      ensures reply.UpdateNotOk? ==> tasks == old(tasks) && outcome == Raised(UpdateFailed)
      ensures reply.UpdateThrew? ==> tasks == old(tasks) && outcome == Raised(reply.message)
    {
      request := Patch(taskId, updates);
      outcome := ApplyReply(taskId, reply, UpdateFailed);
    }

    /** The shared tail of both updates: replace on success, raise otherwise. */
    method ApplyReply(taskId: string, reply: UpdateReply, notOkMessage: string) returns (outcome: Outcome)
      modifies this`tasks
      ensures reply.Updated? ==> tasks == ReplaceById(old(tasks), taskId, reply.record) && outcome == Completed
      ensures reply.UpdateNotOk? ==> tasks == old(tasks) && outcome == Raised(notOkMessage)
      ensures reply.UpdateThrew? ==> tasks == old(tasks) && outcome == Raised(reply.message)
    {
      match reply
      case Updated(record) =>
        tasks := ReplaceById(tasks, taskId, record);
        outcome := Completed;
      case UpdateNotOk => outcome := Raised(notOkMessage);
      case UpdateThrew(message) => outcome := Raised(message);
    }

    /** `deleteTask`: on success the entries with the id are filtered out; on
        failure the list is kept and the error raised. */
    method DeleteTask(taskId: string, reply: DeleteReply) returns (request: Request, outcome: Outcome)
      modifies this`tasks
      ensures request == Delete(taskId)
      ensures reply.Deleted? ==> tasks == RemoveById(old(tasks), taskId) && outcome == Completed
      ensures reply.DeleteNotOk? ==> tasks == old(tasks) && outcome == Raised(DeleteFailed)
      ensures reply.DeleteThrew? ==> tasks == old(tasks) && outcome == Raised(reply.message)
    {
      request := Delete(taskId);
      match reply
      case Deleted =>
        tasks := RemoveById(tasks, taskId);
        outcome := Completed;
      case DeleteNotOk => outcome := Raised(DeleteFailed);
      case DeleteThrew(message) => outcome := Raised(message);
    }
  }
}

/** The edit dialog: a form pre-filled from the task being edited, the update
    its save button sends, the guard that enables that button, and the flags
    that the save and delete handlers set and reset. The parent page owns the
    `task` and `isOpen` properties; closing asks it to clear both. */
module TaskEditModal {
  import opened Wrappers
  import opened TaskTypes
  import opened Text

  /** The form's five input fields; a nullable field shows as text. */
  datatype Form = Form(title: string, description: string, status: TaskStatus, priority: Priority, assignee: string)

  const BlankForm := Form("", "", Todo, Medium, "")

  /** `value || ''`: a null field shows as the empty string. */
  function EmptyIfNull(value: Option<string>): (text: string)
    ensures value.Some? ==> text == value.value
    ensures text == "" <==> value.None? || value == Some("")
  {
    match value
    case None => ""
    case Some(s) => s
  }

  /** `text || null`: an empty input is sent as null. */
  function NullIfEmpty(text: string): (r: Option<string>)
    ensures r.None? <==> text == ""
    ensures r.Some? ==> r.value == text
  {
    if text == "" then None else Some(text)
  }

  /** Showing a field and sending it back gives the field itself, except that
      a stored '' comes back as null. */
  lemma ShowThenSend(value: Option<string>)
    ensures NullIfEmpty(EmptyIfNull(value)) == if value == Some("") then None else value
  {
  }

  /** Sending an input and showing it again gives the input back. */
  lemma SendThenShow(text: string)
    ensures EmptyIfNull(NullIfEmpty(text)) == text
  {
  }

  /** The pre-fill effect's view of a task. */
  function Prefill(d: TaskData): (f: Form)
    ensures f.title == d.title && f.status == d.status && f.priority == d.priority
    ensures f.description == "" <==> d.description.None? || d.description == Some("")
    ensures d.description.Some? ==> f.description == d.description.value
    ensures f.assignee == "" <==> d.assignee.None? || d.assignee == Some("")
    ensures d.assignee.Some? ==> f.assignee == d.assignee.value
  {
    Form(d.title, EmptyIfNull(d.description), d.status, d.priority, EmptyIfNull(d.assignee))
  }

  /** The update the save button sends: every field present, title, status
      and priority as typed (the title is not trimmed), and an empty
      description or assignee as null. */
  function SavePayload(f: Form): (u: UpdateTaskInput)
    ensures u.title == Present(f.title) && u.status == Present(f.status) && u.priority == Present(f.priority)
    ensures u.description.Present? && u.assignee.Present?
    ensures u.description.value.None? <==> f.description == ""
    ensures u.assignee.value.None? <==> f.assignee == ""
    ensures u.description.value.Some? ==> u.description.value.value == f.description
    ensures u.assignee.value.Some? ==> u.assignee.value.value == f.assignee
  {
    UpdateTaskInput(Present(f.title), Present(NullIfEmpty(f.description)), Present(f.status),
                    Present(f.priority), Present(NullIfEmpty(f.assignee)))
  }

  /** Saving a form that was pre-filled and not edited leaves the task's
      fields as they are, except that a stored '' description or assignee
      becomes null. */
  lemma SaveUneditedForm(d: TaskData)
    ensures ApplyUpdate(d, SavePayload(Prefill(d)))
         == d.(description := if d.description == Some("") then None else d.description,
               assignee := if d.assignee == Some("") then None else d.assignee)
  {
    ShowThenSend(d.description);
    ShowThenSend(d.assignee);
  }

  /** Whatever task it is applied to, a saved form pre-fills back to itself. */
  lemma PrefillAfterSave(d: TaskData, f: Form)
    ensures Prefill(ApplyUpdate(d, SavePayload(f))) == f
  {
    SendThenShow(f.description);
    SendThenShow(f.assignee);
  }

  /** The save button's guard, `!(loading || !title.trim())`: enabled exactly
      when no save or delete is running and the title has a non-whitespace
      character. */
  predicate SaveEnabled(loading: bool, title: string): (enabled: bool)
    ensures enabled <==> !loading && !Blank(title)
  {
    !(loading || Trim(title) == "")
  }

  class Modal {
    /** The task being edited and whether the dialog is open: properties set
        by the page. */
    var task: Option<Task>
    var isOpen: bool
    var title: string
    var description: string
    var status: TaskStatus
    var priority: Priority
    var assignee: string
    var loading: bool
    var showDeleteConfirm: bool

    function CurrentForm(): Form
      reads this
    {
      Form(title, description, status, priority, assignee)
    }

    /** The dialog renders, and its handlers exist, only when it is open on
        a task. */
    predicate Rendered()
      reads this
    {
      isOpen && task.Some?
    }

    predicate CanSave()
      reads this
    {
      SaveEnabled(loading, title)
    }

    /** Initial state: closed, no task, an empty form with the default status
        and priority, no flag set. */
    constructor ()
      ensures task == None && !isOpen
      ensures CurrentForm() == BlankForm && !loading && !showDeleteConfirm
    {
      task, isOpen := None, false;
      title, description, status, priority, assignee := "", "", Todo, Medium, "";
      loading, showDeleteConfirm := false, false;
    }

    /** The page opens the dialog on a task. When the task differs from the
        previous one, the pre-fill effect copies its fields into the form. */
    method Open(t: Task)
      modifies this
      ensures task == Some(t) && isOpen
      ensures CurrentForm() == if old(task) == Some(t) then old(CurrentForm()) else Prefill(Fields(t))
      ensures loading == old(loading) && showDeleteConfirm == old(showDeleteConfirm)
    {
      var changed := task != Some(t);
      task, isOpen := Some(t), true;
      if changed {
        title := t.title;
        description := EmptyIfNull(t.description);
        status := t.status;
        priority := t.priority;
        assignee := EmptyIfNull(t.assignee);
      }
    }

    /** `onClose`: the page closes the dialog and clears its task. With no
        task the pre-fill effect does nothing, so the form keeps its text. */
    method Close()
      modifies this
      ensures !isOpen && task == None
      ensures CurrentForm() == old(CurrentForm())
      ensures loading == old(loading) && showDeleteConfirm == old(showDeleteConfirm)
    {
      isOpen, task := false, None;
    }

    /** The input fields' change handlers. */
    method EditForm(f: Form)
      requires Rendered()
      modifies this`title, this`description, this`status, this`priority, this`assignee
      ensures CurrentForm() == f
    {
      title, description, status, priority, assignee := f.title, f.description, f.status, f.priority, f.assignee;
    }

    /** `handleSave`: sends the form's update for the task; `saveRaises` says
        whether the awaited save throws. The button is enabled only when
        `CanSave()`. The dialog closes only when the save does not throw;
        `loading` is false afterwards either way. */
    method HandleSave(saveRaises: bool) returns (taskId: string, updates: UpdateTaskInput)
      requires Rendered() && CanSave()
      modifies this
      ensures taskId == old(task).value.id && updates == SavePayload(old(CurrentForm()))
      ensures !loading
      ensures !saveRaises ==> !isOpen && task == None
      ensures saveRaises ==> isOpen == old(isOpen) && task == old(task)
      ensures CurrentForm() == old(CurrentForm()) && showDeleteConfirm == old(showDeleteConfirm)
    {
      loading := true;
      taskId := task.value.id;
      updates := UpdateTaskInput(Present(title), Present(NullIfEmpty(description)), Present(status),
                                 Present(priority), Present(NullIfEmpty(assignee)));
      if !saveRaises {
        Close();
      }
      loading := false;
    }

    /** The delete button, enabled while nothing is loading, opens the
        confirmation. */
    method AskDelete()
      requires Rendered() && !loading
      modifies this`showDeleteConfirm
      ensures showDeleteConfirm
    {
      showDeleteConfirm := true;
    }

    /** The confirmation's cancel button, enabled while nothing is loading,
        hides it again. */
    method CancelDelete()
      requires Rendered() && !loading
      modifies this`showDeleteConfirm
      ensures !showDeleteConfirm
    {
      showDeleteConfirm := false;
    }

    /** `handleDelete`: deletes the task; `deleteRaises` says whether the
        awaited delete throws. Its button is enabled only while nothing is
        loading. The dialog closes only when the delete does not throw; the
        confirmation is hidden and `loading` false afterwards either way. */
    method HandleDelete(deleteRaises: bool) returns (taskId: string)
      requires Rendered() && !loading && showDeleteConfirm
      modifies this
      ensures taskId == old(task).value.id
      ensures !loading && !showDeleteConfirm
      ensures !deleteRaises ==> !isOpen && task == None
      ensures deleteRaises ==> isOpen == old(isOpen) && task == old(task)
      ensures CurrentForm() == old(CurrentForm())
    {
      loading := true;
      taskId := task.value.id;
      if !deleteRaises {
        Close();
      }
      loading := false;
      showDeleteConfirm := false;
    }
  }
}

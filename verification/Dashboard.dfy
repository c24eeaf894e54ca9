/**
 * The dashboard's in-memory state and its handlers. Each handler is one
 * atomic step: it may issue one store call, is told how the call settled,
 * and then patches `tasks`, `loading` and `editingTask`. The signed-in user
 * is passed in as the email, or `None` when nobody is signed in.
 */
module DashboardPage {
  import opened TaskTypes
  import opened Gateway
  import opened TaskPatches

  class Dashboard {
    /** The tasks of the signed-in user, most recent first. */
    var tasks: seq<Task>
    /** Whether the list is replaced by the loading indicator. */
    var loading: bool
    /** The task the form is editing; `None` while the form creates. */
    var editingTask: Option<Task>

    /** The first render: no tasks, loading, not editing. */
    constructor ()
      ensures tasks == [] && loading && editingTask == None
    {
      tasks := [];
      loading := true;
      editingTask := None;
    }

    /**
     * Fetches the user's tasks. Success replaces the list wholesale; a
     * failure keeps it and raises no alert. Either way loading ends.
     */
    method LoadTasks(user: Option<string>, reply: Reply<seq<Task>>) returns (fx: Effects)
      modifies this
      ensures editingTask == old(editingTask) && !fx.alerted
      ensures user == None ==>
        fx.call == NoCall && tasks == old(tasks) && loading == old(loading)
      ensures user.Some? ==> fx.call == Call.GetTasks(user.value) && !loading
      ensures user.Some? ==>
        tasks == if reply.Resolved? then reply.value else old(tasks)
    {
      if user == None {
        return Effects(NoCall, false);
      }
      loading := true;
      if reply.Resolved? {
        tasks := reply.value;
      }
      loading := false;
      fx := Effects(Call.GetTasks(user.value), false);
    }

    /**
     * Creates a task from the draft. Success prepends the stored task to
     * the list; failure keeps the list and alerts once. Without a user
     * nothing happens.
     */
    method CreateTask(user: Option<string>, data: TaskFormData, reply: Reply<string>)
      returns (fx: Effects)
      modifies this
      ensures editingTask == old(editingTask) && loading == old(loading)
      ensures user == None ==> fx == Effects(NoCall, false) && tasks == old(tasks)
      ensures user.Some? ==> fx.call == Call.CreateTask(data, user.value)
      ensures user.Some? && reply.Resolved? ==>
        !fx.alerted && tasks == [CreatedTask(reply.value, data, user.value)] + old(tasks)
      ensures user.Some? && reply.Rejected? ==> fx.alerted && tasks == old(tasks)
    {
      if user == None {
        return Effects(NoCall, false);
      }
      var call := Call.CreateTask(data, user.value);
      if reply.Resolved? {
        var newTask := CreatedTask(reply.value, data, user.value);
        tasks := [newTask] + tasks;
        fx := Effects(call, false);
      } else {
        fx := Effects(call, true);
      }
    }

    /**
     * Saves the draft into the task being edited. Success merges the draft
     * into every task with the edited id and leaves editing; failure keeps
     * the list and the editing slot and alerts once. Without a user or an
     * edited task nothing happens.
     */
    method UpdateTask(user: Option<string>, data: TaskFormData, reply: Reply<()>)
      returns (fx: Effects)
      modifies this
      ensures loading == old(loading)
      ensures user == None || old(editingTask) == None ==>
        fx == Effects(NoCall, false) && tasks == old(tasks) && editingTask == old(editingTask)
      ensures user.Some? && old(editingTask).Some? ==>
        fx.call == Call.UpdateTask(old(editingTask).value.id, data)
      ensures user.Some? && old(editingTask).Some? && reply.Resolved? ==>
        && !fx.alerted
        && tasks == UpdateById(old(tasks), old(editingTask).value.id, data)
        && editingTask == None
      ensures user.Some? && old(editingTask).Some? && reply.Rejected? ==>
        fx.alerted && tasks == old(tasks) && editingTask == old(editingTask)
    {
      if user == None || editingTask == None {
        return Effects(NoCall, false);
      }
      var id := editingTask.value.id;
      var call := Call.UpdateTask(id, data);
      if reply.Resolved? {
        tasks := UpdateById(tasks, id, data);
        editingTask := None;
        fx := Effects(call, false);
      } else {
        fx := Effects(call, true);
      }
    }

    /**
     * Deletes a task once the user has confirmed. Success drops every task
     * with that id; failure keeps the list and alerts once. An unconfirmed
     * delete does nothing. No user is required.
     */
    method DeleteTask(taskId: string, confirmed: bool, reply: Reply<()>) returns (fx: Effects)
      modifies this
      ensures editingTask == old(editingTask) && loading == old(loading)
      ensures !confirmed ==> fx == Effects(NoCall, false) && tasks == old(tasks)
      ensures confirmed ==> fx.call == Call.DeleteTask(taskId)
      ensures confirmed && reply.Resolved? ==>
        !fx.alerted && tasks == RemoveById(old(tasks), taskId)
      ensures confirmed && reply.Rejected? ==> fx.alerted && tasks == old(tasks)
    {
      if !confirmed {
        return Effects(NoCall, false);
      }
      var call := Call.DeleteTask(taskId);
      if reply.Resolved? {
        tasks := RemoveById(tasks, taskId);
        fx := Effects(call, false);
      } else {
        fx := Effects(call, true);
      }
    }

    /**
     * Sets `completed` on the tasks with the given id. Failure keeps the
     * list and alerts once. No user is required.
     */
    method ToggleComplete(taskId: string, completed: bool, reply: Reply<()>) returns (fx: Effects)
      modifies this
      ensures editingTask == old(editingTask) && loading == old(loading)
      ensures fx.call == Call.ToggleTaskComplete(taskId, completed)
      ensures reply.Resolved? ==>
        !fx.alerted && tasks == SetCompletedById(old(tasks), taskId, completed)
      ensures reply.Rejected? ==> fx.alerted && tasks == old(tasks)
    {
      var call := Call.ToggleTaskComplete(taskId, completed);
      if reply.Resolved? {
        tasks := SetCompletedById(tasks, taskId, completed);
        fx := Effects(call, false);
      } else {
        fx := Effects(call, true);
      }
    }

    /** Starts editing `task`, replacing any task edited before. */
    method EditTask(task: Task)
      modifies this
      ensures editingTask == Some(task)
      ensures tasks == old(tasks) && loading == old(loading)
    {
      editingTask := Some(task);
    }

    /** Leaves editing without saving. */
    method CancelEdit()
      modifies this
      ensures editingTask == None
      ensures tasks == old(tasks) && loading == old(loading)
    {
      editingTask := None;
    }
  }

  /** What the dashboard passes to the form for a given editing slot. */
  datatype FormProps = FormProps(
    submitsUpdate: bool,
    initialData: Option<TaskFormData>,
    isEditing: bool,
    hasCancel: bool)

  /**
   * The form is in edit mode, routes its submit to the update handler,
   * offers a cancel handler and is seeded with the task's fields exactly
   * when a task is being edited.
   */
  function FormPropsFor(editing: Option<Task>): (p: FormProps)
    ensures p.isEditing <==> editing.Some?
    ensures p.submitsUpdate == p.isEditing && p.hasCancel == p.isEditing
    ensures p.initialData.Some? <==> p.isEditing
    ensures editing.Some? ==> p.initialData == Some(DraftOf(editing.value))
  {
    match editing
    case None => FormProps(false, None, false, false)
    case Some(t) => FormProps(true, Some(DraftOf(t)), true, true)
  }
}

/**
 * The dashboard screen: the dashboard's state, the form it renders and the
 * list callbacks it wires to its handlers. The form's seed is a new object
 * on every dashboard render, so the form's sync effect runs after every
 * render of the dashboard; `Render` is that step.
 */
module DashboardScreen {
  import opened TaskTypes
  import opened Gateway
  import opened TaskPatches
  import opened DashboardPage
  import opened TaskFormView
  import opened TaskListView

  class Screen {
    const dashboard: Dashboard
    const form: TaskForm

    /** The first render: empty list, loading, create mode, empty draft. */
    constructor ()
      ensures fresh(dashboard) && fresh(form)
      ensures dashboard.tasks == [] && dashboard.loading && dashboard.editingTask == None
      ensures form.formData == EmptyDraft()
    {
      dashboard := new Dashboard();
      form := new TaskForm();
    }

    /**
     * A render of the dashboard: while a task is being edited the form's
     * draft is reseeded with that task's fields; otherwise it is kept.
     */
    method Render()
      modifies form
      ensures form.formData ==
        if dashboard.editingTask.Some? then DraftOf(dashboard.editingTask.value)
        else old(form.formData)
    {
      form.SyncInitialData(FormPropsFor(dashboard.editingTask).initialData);
    }

    /** The signed-in user became available (or changed): load the list. */
    method UserChanged(user: Option<string>, reply: Reply<seq<Task>>) returns (fx: Effects)
      modifies dashboard, form
      ensures dashboard.editingTask == old(dashboard.editingTask) && !fx.alerted
      ensures user.Some? ==> fx.call == Call.GetTasks(user.value) && !dashboard.loading
      ensures user.Some? ==>
        dashboard.tasks == if reply.Resolved? then reply.value else old(dashboard.tasks)
      ensures user == None ==>
        && fx.call == NoCall
        && dashboard.tasks == old(dashboard.tasks)
        && dashboard.loading == old(dashboard.loading)
        && form.formData == old(form.formData)
      ensures user.Some? ==>
        form.formData == (if dashboard.editingTask.Some? then DraftOf(dashboard.editingTask.value)
                          else old(form.formData))
    {
      fx := dashboard.LoadTasks(user, reply);
      if user.Some? {
        Render();
      }
    }

    /** The user typed into one input of the form. */
    method Type(c: FieldChange)
      requires WellFormedChange(c)
      modifies form
      ensures form.formData == ApplyChange(old(form.formData), c)
    {
      form.Change(c);
    }

    /**
     * The form is submitted. An empty title stops it. In create mode the
     * draft goes to the create handler and is cleared whatever the store
     * answers; in edit mode it goes to the update handler and is kept, so
     * after a successful update the form is in create mode still showing
     * the edited values. `reply` is the store's answer: the new document id
     * for a create; for an update only its success matters.
     */
    method SubmitForm(user: Option<string>, reply: Reply<string>) returns (fx: Effects)
      modifies dashboard, form
      ensures dashboard.loading == old(dashboard.loading)
      ensures old(form.formData).title == "" ==>
        && fx == Effects(NoCall, false)
        && form.formData == old(form.formData)
        && dashboard.tasks == old(dashboard.tasks)
        && dashboard.editingTask == old(dashboard.editingTask)
      ensures old(form.formData).title != "" && old(dashboard.editingTask) == None ==>
        && form.formData == EmptyDraft()
        && dashboard.editingTask == None
        && (user.Some? ==> fx.call == Call.CreateTask(old(form.formData), user.value))
        && (user == None ==> fx == Effects(NoCall, false) && dashboard.tasks == old(dashboard.tasks))
        && (user.Some? && reply.Resolved? ==>
              && !fx.alerted
              && dashboard.tasks == [CreatedTask(reply.value, old(form.formData), user.value)] + old(dashboard.tasks))
        && (user.Some? && reply.Rejected? ==> fx.alerted && dashboard.tasks == old(dashboard.tasks))
      ensures old(form.formData).title != "" && old(dashboard.editingTask).Some? ==>
        && form.formData == old(form.formData)
        && (user == None ==>
              && fx == Effects(NoCall, false)
              && dashboard.tasks == old(dashboard.tasks)
              && dashboard.editingTask == old(dashboard.editingTask))
        && (user.Some? ==>
              fx.call == Call.UpdateTask(old(dashboard.editingTask).value.id, old(form.formData)))
        && (user.Some? && reply.Resolved? ==>
              && !fx.alerted
              && dashboard.editingTask == None
              && dashboard.tasks ==
                   UpdateById(old(dashboard.tasks), old(dashboard.editingTask).value.id, old(form.formData)))
        && (user.Some? && reply.Rejected? ==>
              && fx.alerted
              && dashboard.editingTask == old(dashboard.editingTask)
              && dashboard.tasks == old(dashboard.tasks))
    {
      var props := FormPropsFor(dashboard.editingTask);
      var submitted := form.Submit(props.isEditing);
      if submitted == None {
        return Effects(NoCall, false);
      }
      if props.submitsUpdate {
        var updateReply: Reply<()> := if reply.Resolved? then Resolved(()) else Rejected;
        fx := dashboard.UpdateTask(user, submitted.value, updateReply);
      } else {
        fx := dashboard.CreateTask(user, submitted.value, reply);
      }
    }

    /**
     * The Cancel button, offered only while editing: leaves edit mode
     * without submitting; the draft keeps the edited values.
     */
    method CancelClicked()
      requires CancelShown(FormPropsFor(dashboard.editingTask).isEditing,
                           FormPropsFor(dashboard.editingTask).hasCancel)
      modifies dashboard, form
      ensures dashboard.editingTask == None
      ensures dashboard.tasks == old(dashboard.tasks) && dashboard.loading == old(dashboard.loading)
      ensures form.formData == old(form.formData)
    {
      dashboard.CancelEdit();
      Render();
    }

    /**
     * A control of the row showing task `t` was used. Edit starts editing
     * `t` and seeds the form with its fields, unless `t` is already the
     * task being edited: setting the slot to the value it holds is no state
     * change, so nothing re-renders and unsaved edits stay. The checkbox and
     * Delete go to the toggle and delete handlers. A successful change
     * re-renders the dashboard, which reseeds the form while a task is being
     * edited and leaves it alone otherwise.
     */
    method RowEventFired(t: Task, e: RowEvent, confirmed: bool, reply: Reply<()>)
      returns (fx: Effects)
      modifies dashboard, form
      ensures dashboard.loading == old(dashboard.loading)
      ensures e.EditClicked? ==>
        && fx == Effects(NoCall, false)
        && dashboard.editingTask == Some(t)
        && dashboard.tasks == old(dashboard.tasks)
        && form.formData ==
             if old(dashboard.editingTask) == Some(t) then old(form.formData) else DraftOf(t)
      ensures e.CheckboxChanged? ==>
        && fx.call == Call.ToggleTaskComplete(t.id, e.checked)
        && dashboard.editingTask == old(dashboard.editingTask)
        && dashboard.tasks ==
             if reply.Resolved? then SetCompletedById(old(dashboard.tasks), t.id, e.checked)
             else old(dashboard.tasks)
      ensures e.DeleteClicked? ==>
        && fx.call == (if confirmed then Call.DeleteTask(t.id) else NoCall)
        && dashboard.editingTask == old(dashboard.editingTask)
        && dashboard.tasks ==
             if confirmed && reply.Resolved? then RemoveById(old(dashboard.tasks), t.id)
             else old(dashboard.tasks)
      ensures !e.EditClicked? && fx.call != NoCall && reply.Resolved?
                && dashboard.editingTask.Some? ==>
        form.formData == DraftOf(dashboard.editingTask.value)
      ensures !e.EditClicked? && dashboard.editingTask == None ==>
        form.formData == old(form.formData)
      ensures fx.alerted <==> fx.call != NoCall && reply.Rejected?
      ensures (fx.call == NoCall || reply.Rejected?) && !e.EditClicked? ==>
        form.formData == old(form.formData)
    {
      var cb := RowCallback(t, e);
      match cb
      case OnEdit(task) =>
        var sameTask := dashboard.editingTask == Some(task);
        dashboard.EditTask(task);
        fx := Effects(NoCall, false);
        if !sameTask {
          Render();
        }
      case OnToggleComplete(id, completed) =>
        fx := dashboard.ToggleComplete(id, completed, reply);
        if reply.Resolved? {
          Render();
        }
      case OnDelete(id) =>
        fx := dashboard.DeleteTask(id, confirmed, reply);
        if confirmed && reply.Resolved? {
          Render();
        }
    }
  }

  /**
   * Ticking the checkbox of row `k` and the toggle succeeding: provided ids
   * are unique, the re-rendered list is the old one with only row `k`
   * replaced, by the row of that task with the new checked value.
   */
  lemma CheckboxRoundTrip(ts: seq<Task>, k: nat, checked: bool)
    requires UniqueIds(ts) && k < |ts|
    ensures RowCallback(ts[k], CheckboxChanged(checked)) == OnToggleComplete(ts[k].id, checked)
    ensures RenderList(SetCompletedById(ts, ts[k].id, checked))
         == Rows(RenderRows(ts)[k := RenderRow(ts[k].(completed := checked))])
    ensures RenderRow(ts[k].(completed := checked)).checked == checked
  {
    var after := SetCompletedById(ts, ts[k].id, checked);
    var rows := RenderRows(after);
    var expected := RenderRows(ts)[k := RenderRow(ts[k].(completed := checked))];
    forall i | 0 <= i < |ts|
      ensures rows[i] == expected[i]
    {
      if i < k {
        assert ts[i].id != ts[k].id;
      } else if k < i {
        assert ts[k].id != ts[i].id;
      }
    }
    assert rows == expected;
  }
}

/**
 * The task list as a view model: for each task, the row decisions the list
 * makes (checkbox state, strike-through, whether the description shows, the
 * priority badge) and the callback each row control invokes.
 */
module TaskListView {
  import opened TaskTypes

  const RedBadge := "bg-red-100 text-red-800"
  const YellowBadge := "bg-yellow-100 text-yellow-800"
  const GreenBadge := "bg-green-100 text-green-800"
  const GrayBadge := "bg-gray-100 text-gray-800"

  /**
   * The badge classes for a priority string: red for High, yellow for
   * Medium, green for Low and gray for anything else.
   */
  function PriorityColor(priority: string): (r: string)
    ensures r == GrayBadge <==> priority !in {"High", "Medium", "Low"}
    ensures priority == "High" ==> r == RedBadge
    ensures priority == "Medium" ==> r == YellowBadge
    ensures priority == "Low" ==> r == GreenBadge
  {
    match priority
    case "High" => RedBadge
    case "Medium" => YellowBadge
    case "Low" => GreenBadge
    case _ => GrayBadge
  }

  /** Distinct priorities get distinct badges, and none of them is gray. */
  lemma BadgeTellsPrioritiesApart(p: Priority, q: Priority)
    ensures PriorityColor(PriorityName(p)) != GrayBadge
    ensures PriorityColor(PriorityName(p)) == PriorityColor(PriorityName(q)) <==> p == q
  {
  }

  /** What one row shows. */
  datatype RowView = RowView(
    key: string,
    checked: bool,
    title: string,
    titleStruck: bool,
    description: Option<string>,
    descriptionStruck: bool,
    badgeClass: string,
    badgeLabel: string)

  /** What the list shows: a placeholder, or one row per task. */
  datatype ListView = Placeholder | Rows(rows: seq<RowView>)

  /** The row of a task. */
  function RenderRow(t: Task): RowView
  {
    RowView(
      t.id,
      t.completed,
      t.title,
      t.completed,
      if t.description != "" then Some(t.description) else None,
      t.completed,
      PriorityColor(PriorityName(t.priority)),
      PriorityName(t.priority) + " Priority")
  }

  /**
   * A row is checked and struck through exactly when its task is completed,
   * shows the description exactly when it is non-empty, and wears the badge
   * of its task's priority.
   */
  lemma RowDecisions(t: Task)
    ensures RenderRow(t).checked <==> t.completed
    ensures RenderRow(t).titleStruck <==> t.completed
    ensures RenderRow(t).descriptionStruck <==> t.completed
    ensures RenderRow(t).description.Some? <==> t.description != ""
    ensures RenderRow(t).description.Some? ==> RenderRow(t).description.value == t.description
    ensures RenderRow(t).badgeClass != GrayBadge
    ensures RenderRow(t).key == t.id
  {
  }

  /** One row per task, in the order given. */
  function RenderRows(ts: seq<Task>): (r: seq<RowView>)
    ensures |r| == |ts|
    ensures forall i :: 0 <= i < |ts| ==> r[i] == RenderRow(ts[i])
  {
    if ts == [] then [] else [RenderRow(ts[0])] + RenderRows(ts[1..])
  }

  /**
   * An empty list shows the placeholder and no rows; any other list shows
   * exactly one row per task, in the order given, none sorted or dropped.
   */
  function RenderList(ts: seq<Task>): (v: ListView)
    ensures v == Placeholder <==> ts == []
    ensures v.Rows? ==> |v.rows| == |ts| && v.rows == RenderRows(ts)
    ensures v.Rows? ==> forall i :: 0 <= i < |ts| ==> v.rows[i].key == ts[i].id
  {
    if |ts| == 0 then Placeholder else Rows(RenderRows(ts))
  }

  /** What the user does to a row. */
  datatype RowEvent = CheckboxChanged(checked: bool) | EditClicked | DeleteClicked

  /** The callback a row invokes, with its arguments. */
  datatype Callback =
    | OnToggleComplete(taskId: string, completed: bool)
    | OnEdit(task: Task)
    | OnDelete(taskId: string)

  /**
   * The checkbox reports the row's id and the new checked value; Edit hands
   * over the whole task; Delete hands over only the id and asks nothing.
   */
  function RowCallback(t: Task, e: RowEvent): (cb: Callback)
    ensures e.CheckboxChanged? <==> cb.OnToggleComplete?
    ensures e.EditClicked? <==> cb.OnEdit?
    ensures e.DeleteClicked? <==> cb.OnDelete?
    ensures !cb.OnEdit? ==> cb.taskId == t.id
    ensures cb.OnEdit? ==> cb.task == t
    ensures cb.OnToggleComplete? ==> cb.completed == e.checked
  {
    match e
    case CheckboxChanged(checked) => OnToggleComplete(t.id, checked)
    case EditClicked => OnEdit(t)
    case DeleteClicked => OnDelete(t.id)
  }
}

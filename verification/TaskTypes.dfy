/**
 * The records shared by every part of the dashboard: a stored task, the
 * editable subset of it that the form works on, and the three priorities.
 */
module TaskTypes {

  /** An optional value, standing for the source's `null` / `undefined`. */
  datatype Option<T> = None | Some(value: T)

  /** The three-valued priority of a task. */
  datatype Priority = Low | Medium | High

  /** The string literal a priority is stored and displayed as. */
  function PriorityName(p: Priority): string
  {
    match p
    case Low => "Low"
    case Medium => "Medium"
    case High => "High"
  }

  /** Reads a priority back from its literal; `None` for any other string. */
  function ParsePriority(s: string): (r: Option<Priority>)
    ensures r.Some? <==> s in {"Low", "Medium", "High"}
    ensures r.Some? ==> PriorityName(r.value) == s
  {
    if s == "Low" then Some(Low)
    else if s == "Medium" then Some(Medium)
    else if s == "High" then Some(High)
    else None
  }

  /** Every priority is read back from its own literal. */
  lemma ParsePriorityName(p: Priority)
    ensures ParsePriority(PriorityName(p)) == Some(p)
  {
  }

  /** A stored task; `userEmail` is its owner. */
  datatype Task = Task(
    id: string,
    title: string,
    description: string,
    completed: bool,
    priority: Priority,
    userEmail: string)

  /** The fields a user types into the form. */
  datatype TaskFormData = TaskFormData(
    title: string,
    description: string,
    priority: Priority)

  /** The editable fields of a task, as the dashboard hands them to the form. */
  function DraftOf(t: Task): TaskFormData
  {
    TaskFormData(t.title, t.description, t.priority)
  }
}

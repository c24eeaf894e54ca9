/**
 * The remote task store as the dashboard sees it. The store itself is not
 * modelled: each handler is given the reply the store would send, and reports
 * the one call it issued, so that "no call was made" can be stated.
 */
module Gateway {
  import opened TaskTypes

  /** How a remote call settled: with a value, or with an error. */
  datatype Reply<T> = Resolved(value: T) | Rejected

  /** The store operation a handler invoked, with its arguments. */
  datatype Call =
    | NoCall
    | GetTasks(owner: string)
    | CreateTask(data: TaskFormData, owner: string)
    | UpdateTask(taskId: string, data: TaskFormData)
    | DeleteTask(taskId: string)
    | ToggleTaskComplete(taskId: string, completed: bool)

  /** What one handler did besides changing the dashboard's fields. */
  datatype Effects = Effects(call: Call, alerted: bool)

  /**
   * The task the store returns for a successful create: the new document id,
   * the draft's fields, the owner's email and `completed` false.
   */
  function CreatedTask(id: string, data: TaskFormData, owner: string): (t: Task)
    ensures t.id == id && t.userEmail == owner && !t.completed
    ensures DraftOf(t) == data
  {
    Task(id, data.title, data.description, false, data.priority, owner)
  }
}

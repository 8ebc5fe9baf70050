/** The task record and the shapes it takes on its way through the server. */
module TaskModel {
  import opened Wrappers

  datatype Priority = Low | Medium | High

  /** A JSON text column: text that `json.loads` decodes to `value`, or text it rejects
      (including a value that is not text at all, which makes it raise `TypeError`). */
  datatype JsonText<T> = Encoded(value: T) | Unparsable

  /** A decoded JSON object of sub-task label to done flag, in the order of the text. */
  type MiniTasks = seq<(string, bool)>

  /** A row of the task table. Timestamps are whole seconds. A JSON column that is NULL or the
      empty string is `None`: every reader tests it for truthiness before decoding. */
  datatype Task = Task(
    id: int,
    title: string,
    description: Option<string>,
    dueDate: Option<int>,
    completed: bool,
    createdAt: int,
    userId: Option<int>,
    priority: Option<Priority>,
    tags: Option<JsonText<seq<string>>>,
    miniTasks: Option<JsonText<MiniTasks>>)

  /** The API's view of a task (TaskResponse): JSON columns decoded, due date required. */
  datatype TaskView = TaskView(
    id: int,
    title: string,
    description: Option<string>,
    dueDate: int,
    completed: bool,
    createdAt: int,
    priority: Option<Priority>,
    tags: Option<seq<string>>,
    miniTasks: Option<MiniTasks>)

  /** The one overdue rule of the server: still pending, a due date is set, and it lies
      strictly before `now`. */
  predicate IsOverdue(completed: bool, dueDate: Option<int>, now: int) {
    !completed && dueDate.Some? && dueDate.value < now
  }
}

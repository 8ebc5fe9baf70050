/**
 * The task service: create-time validation and normalisation, partial update and
 * deletion, over a repository seen as a table from id to task row.
 */
module TaskService {
  import opened Wrappers
  import opened Strings
  import opened TaskModel

  /** The `ValueError`s the service raises: "Title is required and cannot be empty",
      "Due date is required", "Title cannot be empty", "Task with ID {id} not found". */
  datatype ServiceError = TitleRequired | DueDateRequired | TitleEmpty | NotFound(id: int)

  /** A row the service wrote: a due date is set and its JSON columns decode. */
  predicate Stored(t: Task) {
    t.dueDate.Some? && t.tags != Some(Unparsable) && t.miniTasks != Some(Unparsable)
  }

  /** `json.loads(col) if col else None`. */
  function Decoded<T>(col: Option<JsonText<T>>): Option<T> {
    match col
    case Some(Encoded(x)) => Some(x)
    case _ => None
  }

  /** The TaskResponse built from a row. */
  function View(t: Task): TaskView
    requires Stored(t)
  {
    TaskView(t.id, t.title, t.description, t.dueDate.value, t.completed, t.createdAt,
      t.priority, Decoded(t.tags), Decoded(t.miniTasks))
  }

  // ---------------------------------------------------------------------------
  // Creation

  /** `json.dumps(x) if x else None`: an absent or empty list is not written. */
  function EncodeIfAny<T>(x: Option<seq<T>>): Option<JsonText<seq<T>>> {
    if x.Some? && x.value != [] then Some(Encoded(x.value)) else None
  }

  /** The row `create_task` writes under `id` at time `now`, or the error it raises first. */
  function NewTask(id: int, title: string, description: Option<string>, dueDate: Option<int>,
                   priority: Option<Priority>, tags: Option<seq<string>>, miniTasks: Option<MiniTasks>,
                   now: int): (r: Result<Task, ServiceError>)
    ensures r.Ok? <==> !IsBlank(title) && dueDate.Some?
    ensures IsBlank(title) ==> r == Err(TitleRequired)
    ensures !IsBlank(title) && dueDate.None? ==> r == Err(DueDateRequired)
    ensures r.Ok? ==> Stored(r.value) && r.value.id == id && r.value.dueDate == dueDate
    ensures r.Ok? ==> !r.value.completed && r.value.createdAt == now && r.value.priority == priority
  {
    if IsBlank(title) then Err(TitleRequired)
    else if dueDate.None? then Err(DueDateRequired)
    else
      var description' := if description.Some? && description.value != "" then Some(Strip(description.value)) else None;
      Ok(Task(id, Strip(title), description', dueDate, false, now, None, priority,
        EncodeIfAny(tags), EncodeIfAny(miniTasks)))
  }

  /** A created task keeps a non-blank title with no surrounding white space, and a
      description that is stripped, or none when it was absent or empty. */
  lemma NewTaskNormalises(id: int, title: string, description: Option<string>, dueDate: Option<int>,
                          priority: Option<Priority>, tags: Option<seq<string>>, miniTasks: Option<MiniTasks>, now: int)
    requires NewTask(id, title, description, dueDate, priority, tags, miniTasks, now).Ok?
    ensures var t := NewTask(id, title, description, dueDate, priority, tags, miniTasks, now).value;
      !IsBlank(t.title) && Strip(t.title) == t.title && t.title == Strip(title) &&
      (t.description.None? <==> description.None? || description == Some("")) &&
      (t.description.Some? ==> t.description.value == Strip(description.value) && Strip(t.description.value) == t.description.value)
  {
    var t := NewTask(id, title, description, dueDate, priority, tags, miniTasks, now).value;
    assert t.title == Strip(title);
    StripIdempotent(title);
    assert t.description == if description.Some? && description.value != "" then Some(Strip(description.value)) else None;
    if description.Some? {
      StripIdempotent(description.value);
    }
  }

  /** Through the JSON encoding, a non-empty list comes back unchanged and an empty or
      absent one comes back as `None`. */
  lemma NewTaskRoundTrip(id: int, title: string, description: Option<string>, dueDate: Option<int>,
                         priority: Option<Priority>, tags: Option<seq<string>>, miniTasks: Option<MiniTasks>, now: int)
    requires NewTask(id, title, description, dueDate, priority, tags, miniTasks, now).Ok?
    ensures var v := View(NewTask(id, title, description, dueDate, priority, tags, miniTasks, now).value);
      (v.tags.Some? <==> tags.Some? && tags.value != []) && (v.tags.Some? ==> v.tags == tags) &&
      (v.miniTasks.Some? <==> miniTasks.Some? && miniTasks.value != []) && (v.miniTasks.Some? ==> v.miniTasks == miniTasks)
  {
  }

  // ---------------------------------------------------------------------------
  // Partial update

  /** The optional arguments of `update_task`; `None` means "not provided". */
  datatype Patch = Patch(
    title: Option<string>,
    description: Option<string>,
    dueDate: Option<int>,
    priority: Option<Priority>,
    completed: Option<bool>,
    tags: Option<seq<string>>,
    miniTasks: Option<MiniTasks>)

  const NoChange: Patch := Patch(None, None, None, None, None, None, None)

  /** A provided argument replaces the current value. */
  function Override<T>(current: T, arg: Option<T>): T {
    if arg.Some? then arg.value else current
  }

  function OrElse<T>(arg: Option<T>, current: Option<T>): Option<T> {
    if arg.Some? then arg else current
  }

  /** `description.strip() if description else None` for a provided description. */
  function NewDescription(current: Option<string>, arg: Option<string>): Option<string> {
    if arg.None? then current
    else if arg.value != "" then Some(Strip(arg.value))
    else None
  }

  /** `json.dumps(x)` for a provided list or dict, even an empty one. */
  function NewJson<T>(current: Option<JsonText<T>>, arg: Option<T>): Option<JsonText<T>> {
    if arg.Some? then Some(Encoded(arg.value)) else current
  }

  /** The row after applying `p`, or the error raised before anything is written. */
  function Patched(t: Task, p: Patch): (r: Result<Task, ServiceError>)
    ensures r.Err? <==> p.title.Some? && IsBlank(p.title.value)
    ensures r.Err? ==> r.error == TitleEmpty
    ensures r.Ok? ==> r.value.id == t.id && r.value.createdAt == t.createdAt && r.value.userId == t.userId
    ensures r.Ok? && Stored(t) ==> Stored(r.value)
  {
    if p.title.Some? && IsBlank(p.title.value) then Err(TitleEmpty)
    else
      Ok(t.(
        title := if p.title.Some? then Strip(p.title.value) else t.title,
        description := NewDescription(t.description, p.description),
        dueDate := OrElse(p.dueDate, t.dueDate),
        priority := OrElse(p.priority, t.priority),
        completed := Override(t.completed, p.completed),
        tags := NewJson(t.tags, p.tags),
        miniTasks := NewJson(t.miniTasks, p.miniTasks)))
  }

  /** Fields whose argument is omitted keep their value. */
  lemma PatchKeepsOmitted(t: Task, p: Patch)
    requires Patched(t, p).Ok?
    ensures var u := Patched(t, p).value;
      (p.title.None? ==> u.title == t.title) &&
      (p.description.None? ==> u.description == t.description) &&
      (p.dueDate.None? ==> u.dueDate == t.dueDate) &&
      (p.priority.None? ==> u.priority == t.priority) &&
      (p.completed.None? ==> u.completed == t.completed) &&
      (p.tags.None? ==> u.tags == t.tags) &&
      (p.miniTasks.None? ==> u.miniTasks == t.miniTasks)
  {
  }

  /** Provided fields take the given value, `completed=False` included; a provided
      description is stored stripped, with `""` stored as none and blank text as `""`; and a
      provided empty list is stored as an empty JSON list rather than dropped. */
  lemma PatchAppliesProvided(t: Task, p: Patch)
    requires Patched(t, p).Ok? && Stored(t)
    ensures var u := Patched(t, p).value;
      (p.title.Some? ==> u.title == Strip(p.title.value) && !IsBlank(u.title)) &&
      (p.description.Some? ==>
         u.description == (if p.description.value == "" then None else Some(Strip(p.description.value)))) &&
      (p.description.Some? && p.description.value != "" && IsBlank(p.description.value) ==> u.description == Some("")) &&
      (p.completed.Some? ==> u.completed == p.completed.value) &&
      (p.dueDate.Some? ==> u.dueDate == p.dueDate) &&
      (p.priority.Some? ==> u.priority == p.priority) &&
      (p.tags.Some? ==> View(u).tags == p.tags) &&
      (p.miniTasks.Some? ==> View(u).miniTasks == p.miniTasks)
  {
    if p.title.Some? {
      StripIdempotent(p.title.value);
    }
  }

  /** An update with nothing provided leaves the row as it was. */
  lemma NoChangeIsIdentity(t: Task)
    ensures Patched(t, NoChange) == Ok(t)
  {
  }

  /** Applying the same update twice is applying it once. */
  lemma PatchIdempotent(t: Task, p: Patch)
    requires Patched(t, p).Ok?
    ensures Patched(Patched(t, p).value, p) == Patched(t, p)
  {
    var u := Patched(t, p).value;
    var w := Patched(u, p).value;
    assert w.title == u.title && w.description == u.description;
    assert w == u;
  }

  /** An empty tag list reads back as `[]` after an update but as `None` after a create. */
  lemma EmptyTagsCreateVsUpdate(t: Task, id: int, title: string, dueDate: int, now: int)
    requires Stored(t) && !IsBlank(title)
    ensures View(Patched(t, NoChange.(tags := Some([]))).value).tags == Some([])
    ensures View(NewTask(id, title, None, Some(dueDate), None, Some([]), None, now).value).tags == None
  {
  }

  /** The body of `update_task` after the title check: each provided field is written in
      turn, under its own `is not None` guard. */
  method ApplyProvided(task: Task, p: Patch) returns (updated: Task)
    requires !(p.title.Some? && IsBlank(p.title.value))
    ensures Patched(task, p) == Ok(updated)
  {
    ghost var u := Patched(task, p).value;
    updated := task;
    if p.title.Some? {
      updated := updated.(title := Strip(p.title.value));
    }
    assert updated == task.(title := u.title);
    if p.description.Some? {
      updated := updated.(description := NewDescription(updated.description, p.description));
    }
    assert updated == task.(title := u.title, description := u.description);
    if p.dueDate.Some? {
      updated := updated.(dueDate := p.dueDate);
    }
    if p.priority.Some? {
      updated := updated.(priority := p.priority);
    }
    if p.completed.Some? {
      updated := updated.(completed := p.completed.value);
    }
    assert updated == task.(title := u.title, description := u.description, dueDate := u.dueDate,
      priority := u.priority, completed := u.completed);
    if p.tags.Some? {
      updated := updated.(tags := Some(Encoded(p.tags.value)));
    }
    if p.miniTasks.Some? {
      updated := updated.(miniTasks := Some(Encoded(p.miniTasks.value)));
    }
  }

  // ---------------------------------------------------------------------------
  // The service over its repository

  /**
   * `tasks` is the repository's table; `nextId` the id the database assigns to the next
   * row it inserts.
   */
  class TaskService {
    var tasks: map<int, Task>
    var nextId: int

    predicate Valid()
      reads this
    {
      forall id :: id in tasks ==> tasks[id].id == id && id < nextId && Stored(tasks[id])
    }

    constructor (rows: map<int, Task>, nextId: int)
      requires forall id :: id in rows ==> rows[id].id == id && id < nextId && Stored(rows[id])
      ensures Valid() && tasks == rows && this.nextId == nextId
    {
      tasks := rows;
      this.nextId := nextId;
    }

    /** `get_task_by_id`. */
    function GetTaskById(id: int): (r: Result<TaskView, ServiceError>)
      reads this
      requires Valid()
      ensures r.Ok? <==> id in tasks
      ensures r.Err? ==> r.error == NotFound(id)
      ensures r.Ok? ==> r.value == View(tasks[id])
      ensures r.Ok? ==> r.value.id == id && r.value.title == tasks[id].title && r.value.completed == tasks[id].completed
      ensures r.Ok? ==> r.value.tags == Decoded(tasks[id].tags) && r.value.miniTasks == Decoded(tasks[id].miniTasks)
    {
      if id in tasks then Ok(View(tasks[id])) else Err(NotFound(id))
    }

    /** `create_task`: nothing is stored when validation fails; otherwise one new row. */
    method CreateTask(title: string, description: Option<string>, dueDate: Option<int>,
                      priority: Option<Priority>, tags: Option<seq<string>>, miniTasks: Option<MiniTasks>,
                      now: int) returns (r: Result<TaskView, ServiceError>)
      requires Valid()
      modifies this
      ensures Valid()
      ensures var made := NewTask(old(nextId), title, description, dueDate, priority, tags, miniTasks, now);
        match made
        case Err(e) => r == Err(e) && tasks == old(tasks) && nextId == old(nextId)
        case Ok(t) => r == Ok(View(t)) && tasks == old(tasks)[t.id := t] && nextId == old(nextId) + 1
      ensures old(nextId) !in old(tasks)
    {
      var made := NewTask(nextId, title, description, dueDate, priority, tags, miniTasks, now);
      if made.Err? {
        return Err(made.error);
      }
      var t := made.value;
      tasks := tasks[t.id := t];
      nextId := nextId + 1;
      r := Ok(View(t));
    }

    /** `update_task`: the fields are written one by one, each under its own guard. */
    method UpdateTask(id: int, p: Patch) returns (r: Result<TaskView, ServiceError>)
      requires Valid()
      modifies this
      ensures Valid() && nextId == old(nextId)
      ensures id !in old(tasks) ==> r == Err(NotFound(id)) && tasks == old(tasks)
      ensures id in old(tasks) ==>
        match Patched(old(tasks)[id], p)
        case Err(e) => r == Err(e) && tasks == old(tasks)
        case Ok(u) => r == Ok(View(u)) && tasks == old(tasks)[id := u]
    {
      if id !in tasks {
        return Err(NotFound(id));
      }
      var task := tasks[id];
      if p.title.Some? && IsBlank(p.title.value) {
        return Err(TitleEmpty);
      }
      task := ApplyProvided(task, p);
      tasks := tasks[id := task];
      r := Ok(View(task));
    }

    /** `TaskRepository.delete`: true exactly when the id was present. */
    method RepositoryDelete(id: int) returns (existed: bool)
      requires Valid()
      modifies this
      ensures Valid() && nextId == old(nextId)
      ensures existed <==> id in old(tasks)
      ensures tasks == old(tasks) - {id}
    {
      existed := id in tasks;
      tasks := tasks - {id};
    }

    /** `delete_task`: a missing id is an error and changes nothing; otherwise the row goes
        and the repository's answer is returned. */
    method DeleteTask(id: int) returns (r: Result<bool, ServiceError>)
      requires Valid()
      modifies this
      ensures Valid() && nextId == old(nextId)
      ensures id !in old(tasks) ==> r == Err(NotFound(id)) && tasks == old(tasks)
      ensures id in old(tasks) ==> r == Ok(true) && tasks == old(tasks) - {id} && id !in tasks
    {
      if id !in tasks {
        return Err(NotFound(id));
      }
      var existed := RepositoryDelete(id);
      r := Ok(existed);
    }
  }
}

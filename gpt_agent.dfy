/**
 * The prompt builders of the agent: one task rendered as detail lines, and the
 * summary and recommendation prompts assembled from a task list.
 *
 * Prompt text is modelled by its structure: a detail line or a prompt block says
 * which fact it carries, not its wording or emoji. `now` (the builders' own
 * `datetime.utcnow()`) is a parameter.
 */
module GptAgent {
  import opened Wrappers
  import opened TaskModel
  import opened Seqs

  const SecondsPerDay: int := 86400

  /** The calendar day of a timestamp (`datetime.date()`); `/` floors for a positive divisor. */
  function Day(t: int): int {
    t / SecondsPerDay
  }

  datatype DueNote = OverdueNote | DueToday | DueOn(at: int)

  /** One entry of the `details` list of `format_task_details`. */
  datatype Line =
    | TitleLine(title: string)
    | DescriptionLine(text: string)
    | StatusLine(completed: bool)
    | PriorityLine(priority: Priority)
    | DueLine(note: DueNote)
    | TagsLine(tags: seq<string>)
    | SubTasksLine(done: nat, total: nat)
    | SubTaskItem(name: string, finished: bool)
    | CreatedLine(at: int)

  /** What the due-date line says: overdue wins over "due today". */
  function DueNoteOf(completed: bool, due: int, now: int): DueNote {
    if due < now && !completed then OverdueNote
    else if Day(due) == Day(now) then DueToday
    else DueOn(due)
  }

  predicate IsDone(entry: (string, bool)) {
    entry.1
  }

  /** The number of finished sub-tasks (`sum(1 for done in values if done)`). */
  function CountDone(entries: MiniTasks): (n: nat)
    ensures n <= |entries|
  {
    |Filter(entries, IsDone)|
  }

  function DescriptionLines(t: Task): seq<Line> {
    if t.description.Some? && t.description.value != "" then [DescriptionLine(t.description.value)] else []
  }

  function PriorityLines(t: Task): seq<Line> {
    if t.priority.Some? then [PriorityLine(t.priority.value)] else []
  }

  function DueLines(t: Task, now: int): seq<Line> {
    if t.dueDate.Some? then [DueLine(DueNoteOf(t.completed, t.dueDate.value, now))] else []
  }

  /** The tag line; text that does not decode is skipped, as is an empty list. */
  function TagLines(t: Task): seq<Line> {
    match t.tags
    case Some(Encoded(tags)) => if tags != [] then [TagsLine(tags)] else []
    case _ => []
  }

  /** One line per sub-task, in the order of the decoded object. */
  function SubTaskItems(entries: MiniTasks): (r: seq<Line>)
    ensures |r| == |entries|
    ensures forall i :: 0 <= i < |r| ==> r[i] == SubTaskItem(entries[i].0, entries[i].1)
  {
    if entries == [] then []
    else SubTaskItems(entries[..|entries| - 1]) + [SubTaskItem(entries[|entries| - 1].0, entries[|entries| - 1].1)]
  }

  /** The sub-task summary line and the item lines of a decoded object; nothing when empty. */
  function SubTaskLines(entries: MiniTasks): seq<Line> {
    if entries != [] then [SubTasksLine(CountDone(entries), |entries|)] + SubTaskItems(entries) else []
  }

  /** The sub-task lines; undecodable text is skipped. */
  function MiniTaskLines(t: Task): seq<Line> {
    match t.miniTasks
    case Some(Encoded(entries)) => SubTaskLines(entries)
    case _ => []
  }

  /** The detail lines of one task, in the order `format_task_details` appends them. */
  function TaskDetails(t: Task, now: int): seq<Line> {
    [TitleLine(t.title)] + DescriptionLines(t) + [StatusLine(t.completed)] + PriorityLines(t)
      + DueLines(t, now) + TagLines(t) + MiniTaskLines(t) + [CreatedLine(t.createdAt)]
  }

  /** Appends one line per sub-task (the loop of lines 53-55). */
  method AppendSubTaskItems(details: seq<Line>, entries: MiniTasks) returns (out: seq<Line>)
    ensures out == details + SubTaskItems(entries)
  {
    out := details;
    for i := 0 to |entries|
      invariant out == details + SubTaskItems(entries[..i])
    {
      assert entries[..i + 1][..i] == entries[..i];
      out := out + [SubTaskItem(entries[i].0, entries[i].1)];
    }
    assert entries[..|entries|] == entries;
  }

  /** Appends the sub-task summary line and then one line per sub-task. */
  method AppendSubTasks(details: seq<Line>, entries: MiniTasks) returns (out: seq<Line>)
    ensures out == details + SubTaskLines(entries)
  {
    if entries == [] {
      return details;
    }
    var summary := [SubTasksLine(CountDone(entries), |entries|)];
    out := AppendSubTaskItems(details + summary, entries);
    assert out == details + (summary + SubTaskItems(entries));
  }

  /** Builds the detail list of one task by appending to it, line by line. */
  method FormatTaskDetails(t: Task, now: int) returns (details: seq<Line>)
    ensures details == TaskDetails(t, now)
  {
    details := [TitleLine(t.title)];
    if t.description.Some? && t.description.value != "" {
      details := details + [DescriptionLine(t.description.value)];
    }
    assert details == [TitleLine(t.title)] + DescriptionLines(t);
    details := details + [StatusLine(t.completed)];
    ghost var head := details;
    if t.priority.Some? {
      details := details + [PriorityLine(t.priority.value)];
    }
    assert details == head + PriorityLines(t);
    head := details;
    if t.dueDate.Some? {
      var note;
      if t.dueDate.value < now && !t.completed {
        note := OverdueNote;
      } else if Day(t.dueDate.value) == Day(now) {
        note := DueToday;
      } else {
        note := DueOn(t.dueDate.value);
      }
      assert note == DueNoteOf(t.completed, t.dueDate.value, now);
      details := details + [DueLine(note)];
    }
    assert details == head + DueLines(t, now);
    head := details;
    if t.tags.Some? && t.tags.value.Encoded? && t.tags.value.value != [] {
      details := details + [TagsLine(t.tags.value.value)];
    }
    assert details == head + TagLines(t);
    head := details;
    match t.miniTasks {
      case Some(Encoded(entries)) =>
        details := AppendSubTasks(details, entries);
      case _ =>
    }
    assert details == head + MiniTaskLines(t);
    details := details + [CreatedLine(t.createdAt)];
  }

  /** The lines contributed by the sub-task object are the summary line and item lines. */
  lemma MiniTaskLinesKinds(t: Task)
    ensures forall l :: l in MiniTaskLines(t) ==> l.SubTasksLine? || l.SubTaskItem?
    ensures forall l :: l in MiniTaskLines(t) && l.SubTasksLine? ==>
      t.miniTasks.Some? && t.miniTasks.value.Encoded? && t.miniTasks.value.value != []
      && l == SubTasksLine(CountDone(t.miniTasks.value.value), |t.miniTasks.value.value|)
  {
    match t.miniTasks
    case Some(Encoded(entries)) =>
      if entries != [] {
        var lines := MiniTaskLines(t);
        forall l | l in lines ensures l.SubTasksLine? || l.SubTaskItem?
          ensures l.SubTasksLine? ==> l == SubTasksLine(CountDone(entries), |entries|)
        {
          var i :| 0 <= i < |lines| && lines[i] == l;
          if i > 0 {
            assert l == SubTaskItems(entries)[i - 1];
          }
        }
      }
    case _ =>
  }

  /** A line is in the details exactly when one of the pieces holds it. */
  lemma DetailsMembers(t: Task, now: int)
    ensures forall l :: l in TaskDetails(t, now) <==>
      l == TitleLine(t.title) || l in DescriptionLines(t) || l == StatusLine(t.completed)
      || l in PriorityLines(t) || l in DueLines(t, now) || l in TagLines(t) || l in MiniTaskLines(t)
      || l == CreatedLine(t.createdAt)
  {
  }

  /** The title line always comes first and the creation line always last. */
  lemma DetailsFrame(t: Task, now: int)
    ensures TaskDetails(t, now)[0] == TitleLine(t.title)
    ensures TaskDetails(t, now)[|TaskDetails(t, now)| - 1] == CreatedLine(t.createdAt)
  {
  }

  /** The description line is present exactly when the description is non-empty. */
  lemma DescriptionLineIff(t: Task, now: int)
    ensures forall x :: DescriptionLine(x) in TaskDetails(t, now) <==> t.description == Some(x) && x != ""
  {
    DetailsMembers(t, now);
    MiniTaskLinesKinds(t);
  }

  /** The priority line is present exactly when a priority is set. */
  lemma PriorityLineIff(t: Task, now: int)
    ensures forall p :: PriorityLine(p) in TaskDetails(t, now) <==> t.priority == Some(p)
  {
    DetailsMembers(t, now);
    MiniTaskLinesKinds(t);
  }

  /** The tag line is present exactly when the tags decode to a non-empty list; tag text
      that does not decode is skipped without failing. */
  lemma TagsLineIff(t: Task, now: int)
    ensures forall tags :: TagsLine(tags) in TaskDetails(t, now) <==> t.tags == Some(Encoded(tags)) && tags != []
    ensures t.tags == Some(Unparsable) ==> forall tags :: TagsLine(tags) !in TaskDetails(t, now)
  {
    DetailsMembers(t, now);
    MiniTaskLinesKinds(t);
  }

  /** A task is marked OVERDUE exactly when it is pending and its due date is set and
      strictly before `now`. */
  lemma OverdueMarkIff(t: Task, now: int)
    ensures DueLine(OverdueNote) in TaskDetails(t, now) <==> IsOverdue(t.completed, t.dueDate, now)
  {
    DetailsMembers(t, now);
    MiniTaskLinesKinds(t);
  }

  /** The sub-task line reports finished entries over all entries of a decoded, non-empty
      sub-task object, and appears for nothing else (text that does not decode is skipped). */
  lemma SubTaskCountLine(t: Task, now: int)
    ensures forall done, total :: SubTasksLine(done, total) in TaskDetails(t, now) <==>
      (t.miniTasks.Some? && t.miniTasks.value.Encoded? && t.miniTasks.value.value != []
       && done == CountDone(t.miniTasks.value.value) && total == |t.miniTasks.value.value|)
    ensures forall done, total :: SubTasksLine(done, total) in TaskDetails(t, now) ==> done <= total
  {
    DetailsMembers(t, now);
    MiniTaskLinesKinds(t);
    match t.miniTasks
    case Some(Encoded(entries)) =>
      if entries != [] {
        assert MiniTaskLines(t)[0] == SubTasksLine(CountDone(entries), |entries|);
      }
    case _ =>
  }

  // ---------------------------------------------------------------------------
  // Task partitions (the list comprehensions of the builders)

  predicate IsCompleted(t: Task) {
    t.completed
  }

  predicate IsPending(t: Task) {
    !t.completed
  }

  predicate IsHighPriority(t: Task) {
    t.priority == Some(High)
  }

  /** The overdue test applied to an already-pending task: `t.due_date and t.due_date < now`. */
  function DueBefore(now: int): Task -> bool {
    (t: Task) => t.dueDate.Some? && t.dueDate.value < now
  }

  /** Membership by value, as `t not in overdue_tasks and t not in high_priority_tasks`. */
  function NotListedIn(overdue: seq<Task>, high: seq<Task>): Task -> bool {
    (t: Task) => t !in overdue && t !in high
  }

  function CompletedTasks(tasks: seq<Task>): seq<Task> {
    Filter(tasks, IsCompleted)
  }

  function PendingTasks(tasks: seq<Task>): seq<Task> {
    Filter(tasks, IsPending)
  }

  function OverdueTasks(pending: seq<Task>, now: int): seq<Task> {
    Filter(pending, DueBefore(now))
  }

  function HighPriorityTasks(pending: seq<Task>): seq<Task> {
    Filter(pending, IsHighPriority)
  }

  function OtherPendingTasks(pending: seq<Task>, overdue: seq<Task>, high: seq<Task>): seq<Task> {
    Filter(pending, NotListedIn(overdue, high))
  }

  /** Completed and pending partition the task list. */
  lemma StatusPartition(tasks: seq<Task>)
    ensures |CompletedTasks(tasks)| + |PendingTasks(tasks)| == |tasks|
    ensures multiset(CompletedTasks(tasks)) + multiset(PendingTasks(tasks)) == multiset(tasks)
    ensures forall t :: t in tasks ==> (t in CompletedTasks(tasks) <==> t !in PendingTasks(tasks))
  {
    FilterSplit(tasks, IsCompleted, IsPending);
    FilterMembers(tasks, IsCompleted);
    FilterMembers(tasks, IsPending);
  }

  /** No task is pending exactly when every task is completed. */
  lemma NoPendingIffAllCompleted(tasks: seq<Task>)
    ensures PendingTasks(tasks) == [] <==> forall i :: 0 <= i < |tasks| ==> tasks[i].completed
  {
    FilterMembers(tasks, IsPending);
    if PendingTasks(tasks) != [] {
      assert PendingTasks(tasks)[0] in tasks;
    } else {
      forall i | 0 <= i < |tasks| ensures tasks[i].completed {
        assert tasks[i] in tasks;
      }
    }
  }

  /** The overdue section holds exactly the tasks of the list that are overdue by the
      server's rule; in particular no completed task is ever listed as overdue. */
  lemma OverdueSectionExact(tasks: seq<Task>, now: int)
    ensures forall t :: t in OverdueTasks(PendingTasks(tasks), now) <==> t in tasks && IsOverdue(t.completed, t.dueDate, now)
  {
    FilterMembers(tasks, IsPending);
    FilterMembers(PendingTasks(tasks), DueBefore(now));
  }

  /** The high-priority section holds exactly the pending tasks of priority high. */
  lemma HighSectionExact(tasks: seq<Task>)
    ensures forall t :: t in HighPriorityTasks(PendingTasks(tasks)) <==> t in tasks && !t.completed && t.priority == Some(High)
  {
    FilterMembers(tasks, IsPending);
    FilterMembers(PendingTasks(tasks), IsHighPriority);
  }

  /** "Other pending" is the rest of the pending tasks: the three pending sections together
      cover every pending task, and "other" shares no task with the first two. */
  lemma OtherPendingExact(tasks: seq<Task>, now: int)
    ensures var p := PendingTasks(tasks);
      var o := OverdueTasks(p, now);
      var h := HighPriorityTasks(p);
      var rest := OtherPendingTasks(p, o, h);
      (forall t :: t in rest <==> t in p && t !in o && t !in h)
      && (forall t :: t in p <==> t in o || t in h || t in rest)
  {
    var p := PendingTasks(tasks);
    var o := OverdueTasks(p, now);
    var h := HighPriorityTasks(p);
    FilterMembers(p, DueBefore(now));
    FilterMembers(p, IsHighPriority);
    FilterMembers(p, NotListedIn(o, h));
  }

  // ---------------------------------------------------------------------------
  // Prompts

  datatype Section = OverdueSection | HighPrioritySection | OtherPendingSection | CompletedSection

  /** One piece of prompt text, in the order the builders append them. */
  datatype Block =
    | SummaryIntro
    | Overview(total: nat, completed: nat, pending: nat)
    | SectionHeader(section: Section, count: nat)
    | TaskEntry(details: seq<Line>)
    | SummaryInstructions
    | RecommendationIntro
    | CurrentTime(now: int)
    | PendingTotal(count: nat)
    | PendingHeader
    | NumberedEntry(number: nat, details: seq<Line>)
    | CompletedContextHeader
    | CompletedItem(title: string, createdAt: int)
    | RecommendationInstructions

  /** A prompt is one of the fixed texts for edge cases, or composed from blocks. */
  datatype Prompt =
    | NoTasksSummary
    | NoTasksRecommendation
    | AllTasksCompleted
    | Composed(blocks: seq<Block>)

  /** One entry per task, in list order. */
  function Entries(ts: seq<Task>, now: int): (r: seq<Block>)
    ensures |r| == |ts|
    ensures forall i :: 0 <= i < |r| ==> r[i] == TaskEntry(TaskDetails(ts[i], now))
  {
    if ts == [] then []
    else
      var front := ts[..|ts| - 1];
      assert forall i :: 0 <= i < |front| ==> front[i] == ts[i];
      Entries(front, now) + [TaskEntry(TaskDetails(ts[|ts| - 1], now))]
  }

  /** A section: its header with the count, then one entry per task; nothing when empty. */
  function SectionBlocks(section: Section, ts: seq<Task>, now: int): seq<Block> {
    if ts == [] then [] else [SectionHeader(section, |ts|)] + Entries(ts, now)
  }

  /** The four task sections of a summary, in the order they are appended. */
  function SummarySections(tasks: seq<Task>, now: int): seq<Block> {
    var pending := PendingTasks(tasks);
    var overdue := OverdueTasks(pending, now);
    var high := HighPriorityTasks(pending);
    SectionBlocks(OverdueSection, overdue, now)
      + SectionBlocks(HighPrioritySection, high, now)
      + SectionBlocks(OtherPendingSection, OtherPendingTasks(pending, overdue, high), now)
      + SectionBlocks(CompletedSection, CompletedTasks(tasks), now)
  }

  /** The summary prompt of `build_prompt_summary`. */
  function SummaryPrompt(tasks: seq<Task>, now: int): (r: Prompt)
    ensures tasks == [] <==> r == NoTasksSummary
  {
    if tasks == [] then NoTasksSummary
    else
      Composed([SummaryIntro, Overview(|tasks|, |CompletedTasks(tasks)|, |PendingTasks(tasks)|)]
        + SummarySections(tasks, now)
        + [SummaryInstructions])
  }

  /** A composed summary opens with the statistics, and its completed and pending counts add
      up to the total. */
  lemma SummaryOverview(tasks: seq<Task>, now: int)
    requires tasks != []
    ensures SummaryPrompt(tasks, now).Composed?
    ensures var b := SummaryPrompt(tasks, now).blocks;
      && |b| >= 3 && b[0] == SummaryIntro && b[|b| - 1] == SummaryInstructions
      && b[1].Overview? && b[1].total == |tasks| && b[1].completed + b[1].pending == |tasks|
  {
    assert |CompletedTasks(tasks)| + |PendingTasks(tasks)| == |tasks| by {
      FilterSplit(tasks, IsCompleted, IsPending);
    }
    var head := [SummaryIntro, Overview(|tasks|, |CompletedTasks(tasks)|, |PendingTasks(tasks)|)];
    var b := head + SummarySections(tasks, now) + [SummaryInstructions];
    assert b[0] == head[0] && b[1] == head[1];
  }

  /** Appends one section, task by task. */
  method AppendSection(blocks: seq<Block>, section: Section, ts: seq<Task>, now: int) returns (out: seq<Block>)
    ensures out == blocks + SectionBlocks(section, ts, now)
  {
    if ts == [] {
      return blocks;
    }
    var added := [SectionHeader(section, |ts|)];
    var entries := [];
    for i := 0 to |ts|
      invariant entries == Entries(ts[..i], now)
    {
      var details := FormatTaskDetails(ts[i], now);
      assert ts[..i + 1][..i] == ts[..i];
      entries := entries + [TaskEntry(details)];
    }
    assert ts[..|ts|] == ts;
    out := blocks + (added + entries);
  }

  /** `build_prompt_summary`: the statistics, then the overdue, high-priority, other pending
      and completed sections, then the instructions. */
  method BuildPromptSummary(tasks: seq<Task>, now: int) returns (prompt: Prompt)
    ensures prompt == SummaryPrompt(tasks, now)
  {
    if |tasks| == 0 {
      return NoTasksSummary;
    }
    var completed := CompletedTasks(tasks);
    var pending := PendingTasks(tasks);
    var blocks := [SummaryIntro, Overview(|tasks|, |completed|, |pending|)];
    var sections := [];
    var overdue := OverdueTasks(pending, now);
    sections := AppendSection(sections, OverdueSection, overdue, now);
    assert sections == SectionBlocks(OverdueSection, overdue, now);
    var high := HighPriorityTasks(pending);
    sections := AppendSection(sections, HighPrioritySection, high, now);
    var others := OtherPendingTasks(pending, overdue, high);
    sections := AppendSection(sections, OtherPendingSection, others, now);
    sections := AppendSection(sections, CompletedSection, completed, now);
    assert sections == SummarySections(tasks, now);
    blocks := blocks + sections + [SummaryInstructions];
    prompt := Composed(blocks);
  }

  /** The pending tasks numbered from 1 in list order (`enumerate(pending_tasks, 1)`). */
  function NumberedEntries(pending: seq<Task>, now: int): (r: seq<Block>)
    ensures |r| == |pending|
    ensures forall i :: 0 <= i < |r| ==> r[i] == NumberedEntry(i + 1, TaskDetails(pending[i], now))
  {
    if pending == [] then []
    else
      var front := pending[..|pending| - 1];
      NumberedEntries(front, now) + [NumberedEntry(|front| + 1, TaskDetails(pending[|front|], now))]
  }

  /** One context line (title and creation time) per completed task. */
  function CompletedItems(completed: seq<Task>): (r: seq<Block>)
    ensures |r| == |completed|
    ensures forall i :: 0 <= i < |r| ==> r[i] == CompletedItem(completed[i].title, completed[i].createdAt)
  {
    if completed == [] then []
    else CompletedItems(completed[..|completed| - 1]) + [CompletedItem(completed[|completed| - 1].title, completed[|completed| - 1].createdAt)]
  }

  function CompletedContext(completed: seq<Task>): seq<Block> {
    if completed == [] then [] else [CompletedContextHeader] + CompletedItems(completed)
  }

  /** The blocks of a recommendation prompt for the given pending and completed tasks. */
  function RecommendationBlocks(pending: seq<Task>, completed: seq<Task>, now: int): seq<Block> {
    [RecommendationIntro, CurrentTime(now), PendingTotal(|pending|), PendingHeader]
      + NumberedEntries(pending, now)
      + CompletedContext(completed)
      + [RecommendationInstructions]
  }

  /** The recommendation prompt of `build_prompt_recommendation`. */
  function RecommendationPrompt(tasks: seq<Task>, now: int): (r: Prompt)
    ensures tasks == [] <==> r == NoTasksRecommendation
    ensures r == AllTasksCompleted <==> tasks != [] && forall i :: 0 <= i < |tasks| ==> tasks[i].completed
  {
    var pending := PendingTasks(tasks);
    NoPendingIffAllCompleted(tasks);
    if tasks == [] then NoTasksRecommendation
    else if pending == [] then AllTasksCompleted
    else Composed(RecommendationBlocks(pending, CompletedTasks(tasks), now))
  }

  /** The loop `for i, task in enumerate(pending_tasks, 1)`. */
  method NumberPending(pending: seq<Task>, now: int) returns (numbered: seq<Block>)
    ensures numbered == NumberedEntries(pending, now)
  {
    numbered := [];
    for i := 0 to |pending|
      invariant numbered == NumberedEntries(pending[..i], now)
    {
      var details := FormatTaskDetails(pending[i], now);
      assert pending[..i + 1][..i] == pending[..i];
      numbered := numbered + [NumberedEntry(i + 1, details)];
    }
    assert pending[..|pending|] == pending;
  }

  /** The completed-tasks context: a header and one line per task, or nothing. */
  method ListCompleted(completed: seq<Task>) returns (context: seq<Block>)
    ensures context == CompletedContext(completed)
  {
    if |completed| == 0 {
      return [];
    }
    var items := [];
    for i := 0 to |completed|
      invariant items == CompletedItems(completed[..i])
    {
      assert completed[..i + 1][..i] == completed[..i];
      items := items + [CompletedItem(completed[i].title, completed[i].createdAt)];
    }
    assert completed[..|completed|] == completed;
    context := [CompletedContextHeader] + items;
  }

  /** `build_prompt_recommendation`: the pending tasks numbered from 1, then the completed
      tasks for context, then the instructions. */
  method BuildPromptRecommendation(tasks: seq<Task>, now: int) returns (prompt: Prompt)
    ensures prompt == RecommendationPrompt(tasks, now)
  {
    if |tasks| == 0 {
      return NoTasksRecommendation;
    }
    var pending := PendingTasks(tasks);
    if |pending| == 0 {
      return AllTasksCompleted;
    }
    var blocks := [RecommendationIntro, CurrentTime(now), PendingTotal(|pending|), PendingHeader];
    var numbered := NumberPending(pending, now);
    blocks := blocks + numbered;
    var context := ListCompleted(CompletedTasks(tasks));
    blocks := blocks + context;
    blocks := blocks + [RecommendationInstructions];
    prompt := Composed(blocks);
  }

  /** In a recommendation prompt the reported pending total is the number of pending tasks,
      and the prompt holds the four header blocks, one block per pending task, the completed
      context and the instructions. */
  lemma RecommendationTotal(pending: seq<Task>, completed: seq<Task>, now: int)
    ensures var b := RecommendationBlocks(pending, completed, now);
      && |b| == 5 + |pending| + |CompletedContext(completed)|
      && b[2] == PendingTotal(|pending|)
  {
    var head := [RecommendationIntro, CurrentTime(now), PendingTotal(|pending|), PendingHeader];
    var front := head + NumberedEntries(pending, now);
    assert front[2] == head[2];
  }

  /** In a recommendation prompt the pending tasks follow the header numbered 1..n in their
      order. */
  lemma RecommendationNumbering(pending: seq<Task>, completed: seq<Task>, now: int)
    ensures var b := RecommendationBlocks(pending, completed, now);
      forall i :: 0 <= i < |pending| ==> b[4 + i] == NumberedEntry(i + 1, TaskDetails(pending[i], now))
  {
    var head := [RecommendationIntro, CurrentTime(now), PendingTotal(|pending|), PendingHeader];
    var numbered := NumberedEntries(pending, now);
    var ctx := CompletedContext(completed);
    forall i | 0 <= i < |pending| ensures RecommendationBlocks(pending, completed, now)[4 + i] == numbered[i] {
      MiddleAt(head, numbered, ctx, i);
    }
  }

  /** Every completed-task line of a recommendation prompt comes after every numbered
      pending task. */
  lemma RecommendationCompletedLast(pending: seq<Task>, completed: seq<Task>, now: int)
    ensures var b := RecommendationBlocks(pending, completed, now);
      forall j, k :: 0 <= j < |b| && 0 <= k < |b| && b[j].NumberedEntry? && b[k].CompletedItem? ==> j < k
  {
    var b := RecommendationBlocks(pending, completed, now);
    var front := RecommendationFront(pending, now);
    var ctx := CompletedContext(completed);
    assert b == (front + ctx) + [RecommendationInstructions];
    FrontHasNoCompletedItem(pending, now);
    ContextHasNoNumberedEntry(completed);
    forall j | 0 <= j < |b| && b[j].NumberedEntry? ensures j < |front| {
    }
    forall k | 0 <= k < |b| && b[k].CompletedItem? ensures |front| <= k {
    }
  }

  /** Every completed-task line of a recommendation prompt names a completed task. */
  lemma RecommendationCompletedNamed(pending: seq<Task>, completed: seq<Task>, now: int)
    ensures var b := RecommendationBlocks(pending, completed, now);
      forall k :: 0 <= k < |b| && b[k].CompletedItem? ==>
        exists t :: t in completed && b[k] == CompletedItem(t.title, t.createdAt)
  {
    var b := RecommendationBlocks(pending, completed, now);
    var front := RecommendationFront(pending, now);
    var ctx := CompletedContext(completed);
    assert b == (front + ctx) + [RecommendationInstructions];
    FrontHasNoCompletedItem(pending, now);
    CompletedContextItems(completed);
    forall k | 0 <= k < |b| && b[k].CompletedItem?
      ensures exists t :: t in completed && b[k] == CompletedItem(t.title, t.createdAt)
    {
      assert |front| <= k < |front| + |ctx|;
      assert b[k] == ctx[k - |front|];
    }
  }

  /** The header blocks and the numbered pending tasks of a recommendation prompt. */
  function RecommendationFront(pending: seq<Task>, now: int): seq<Block> {
    [RecommendationIntro, CurrentTime(now), PendingTotal(|pending|), PendingHeader] + NumberedEntries(pending, now)
  }

  lemma FrontHasNoCompletedItem(pending: seq<Task>, now: int)
    ensures forall i :: 0 <= i < |RecommendationFront(pending, now)| ==> !RecommendationFront(pending, now)[i].CompletedItem?
  {
  }

  lemma ContextHasNoNumberedEntry(completed: seq<Task>)
    ensures forall i :: 0 <= i < |CompletedContext(completed)| ==> !CompletedContext(completed)[i].NumberedEntry?
  {
  }

  /** Each completed-task line of the context names a completed task. */
  lemma CompletedContextItems(completed: seq<Task>)
    ensures var ctx := CompletedContext(completed);
      forall m :: 0 <= m < |ctx| && ctx[m].CompletedItem? ==>
        exists t :: t in completed && ctx[m] == CompletedItem(t.title, t.createdAt)
  {
    var ctx := CompletedContext(completed);
    forall m | 0 <= m < |ctx| && ctx[m].CompletedItem?
      ensures exists t :: t in completed && ctx[m] == CompletedItem(t.title, t.createdAt)
    {
      var t := completed[m - 1];
      assert ctx[m] == CompletedItem(t.title, t.createdAt);
    }
  }
}

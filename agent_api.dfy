/**
 * The metadata the two agent endpoints return beside the generated text, and the
 * task list they hand to the prompt builders. The call to the text generator is
 * not modelled: an endpoint here yields the prompt it would send.
 */
module AgentApi {
  import opened Wrappers
  import opened TaskModel
  import opened Seqs
  import GptAgent

  // ---------------------------------------------------------------------------
  // Summary metadata

  /** `completion_rate` is kept in tenths of a percent: 1000 stands for 100.0. */
  datatype SummaryMetadata = SummaryMetadata(
    totalTasks: nat, completedTasks: nat, pendingTasks: nat, completionRateTenths: nat)

  predicate ViewCompleted(v: TaskView) {
    v.completed
  }

  predicate ViewPending(v: TaskView) {
    !v.completed
  }

  /** `round(c / n * 100, 1)` in tenths, rounding half to even on the exact quotient. */
  function RateTenths(c: nat, n: nat): nat
    requires 0 < n
  {
    var q := (1000 * c) / n;
    var rem := (1000 * c) % n;
    if 2 * rem > n then q + 1
    else if 2 * rem < n then q
    else if q % 2 == 0 then q
    else q + 1
  }

  /** Multiplication by a natural number keeps the order. */
  lemma {:induction false} MulMonotone(a: int, b: int, n: nat)
    requires a <= b
    ensures a * n <= b * n
    decreases b - a
  {
    if a < b {
      MulMonotone(a, b - 1, n);
      assert b * n == (b - 1) * n + n;
    }
  }

  /** The rate lies in [0, 100.0]; it is 0 when nothing is done and 100.0 when all is done. */
  lemma RateBounds(c: nat, n: nat)
    requires 0 < n && c <= n
    ensures RateTenths(c, n) <= 1000
    ensures c == 0 ==> RateTenths(c, n) == 0
    ensures c == n ==> RateTenths(c, n) == 1000
  {
    var q := (1000 * c) / n;
    var rem := (1000 * c) % n;
    assert q * n + rem == 1000 * c && 0 <= rem < n;
    if c < n {
      if q >= 1000 {
        MulMonotone(1000, q, n);
        assert false;
      }
      if c == 0 && q >= 1 {
        MulMonotone(1, q, n);
        assert false;
      }
    } else {
      if q >= 1001 {
        MulMonotone(1001, q, n);
        assert false;
      }
      if q <= 999 {
        MulMonotone(q, 999, n);
        assert false;
      }
      assert q == 1000 && rem == 0;
    }
  }

  /** Rounding reaches 100.0 exactly when at least 99.95% of the tasks are done, so a list
      that is not entirely completed can still report 100.0. */
  lemma RateHundredIff(c: nat, n: nat)
    requires 0 < n && c <= n
    ensures RateTenths(c, n) == 1000 <==> 2000 * c >= 1999 * n
  {
    var q := (1000 * c) / n;
    var rem := (1000 * c) % n;
    assert q * n + rem == 1000 * c && 0 <= rem < n;
    RateBounds(c, n);
    if c == n {
    } else if q >= 1000 {
      MulMonotone(1000, q, n);
      assert false;
    } else if q == 999 {
      assert 2000 * c == 1998 * n + 2 * rem;
    } else {
      MulMonotone(q, 998, n);
      assert 2000 * c < 1999 * n;
    }
  }

  /** 3999 of 4000 tasks done reports 100.0. */
  lemma RateHundredNotAllDone()
    ensures RateTenths(3999, 4000) == 1000
  {
  }

  /** The `metadata` of `get_project_summary`. */
  function SummaryMetadataOf(tasks: seq<TaskView>): (m: SummaryMetadata)
    ensures m.totalTasks == |tasks| && m.completedTasks + m.pendingTasks == m.totalTasks
    ensures m.completedTasks == |Filter(tasks, ViewCompleted)|
    ensures tasks == [] ==> m.completionRateTenths == 0
    ensures m.completionRateTenths <= 1000
    ensures tasks != [] && (forall i :: 0 <= i < |tasks| ==> tasks[i].completed) ==> m.completionRateTenths == 1000
    ensures m.completedTasks == 0 ==> m.completionRateTenths == 0
  {
    var completed := |Filter(tasks, ViewCompleted)|;
    var pending := |Filter(tasks, ViewPending)|;
    FilterSplit(tasks, ViewCompleted, ViewPending);
    assert tasks != [] ==> RateTenths(completed, |tasks|) <= 1000 by {
      if tasks != [] {
        RateBounds(completed, |tasks|);
      }
    }
    assert (forall i :: 0 <= i < |tasks| ==> tasks[i].completed) ==> completed == |tasks| by {
      if forall i :: 0 <= i < |tasks| ==> tasks[i].completed {
        AllSelected(tasks, ViewCompleted);
      }
    }
    assert tasks != [] && completed == |tasks| ==> RateTenths(completed, |tasks|) == 1000 by {
      if tasks != [] {
        RateBounds(completed, |tasks|);
      }
    }
    assert tasks != [] && completed == 0 ==> RateTenths(completed, |tasks|) == 0 by {
      if tasks != [] {
        RateBounds(completed, |tasks|);
      }
    }
    SummaryMetadata(|tasks|, completed, pending, if tasks != [] then RateTenths(completed, |tasks|) else 0)
  }

  /** A filter that keeps every element keeps the whole sequence. */
  lemma {:induction false} AllSelected<T>(s: seq<T>, p: T -> bool)
    requires forall i :: 0 <= i < |s| ==> p(s[i])
    ensures Filter(s, p) == s
  {
    if s != [] {
      AllSelected(s[1..], p);
    }
  }

  // ---------------------------------------------------------------------------
  // Recommendation metadata

  datatype RecommendationMetadata = RecommendationMetadata(
    totalPendingTasks: nat, highPriorityTasks: nat, overdueTasks: nat, overdueTaskIds: seq<int>)

  predicate ViewHighPriority(v: TaskView) {
    v.priority == Some(High)
  }

  function ViewId(v: TaskView): int {
    v.id
  }

  function PendingViews(tasks: seq<TaskView>): seq<TaskView> {
    Filter(tasks, ViewPending)
  }

  /** `task.due_date and task.due_date < now` for a pending task. */
  function ViewDueBefore(now: int): TaskView -> bool {
    (v: TaskView) => v.dueDate < now
  }

  /** The ids of the pending tasks due before `now`, in list order. */
  function OverdueIds(tasks: seq<TaskView>, now: int): seq<int> {
    Map(Filter(PendingViews(tasks), ViewDueBefore(now)), ViewId)
  }

  /** Every listed id belongs to a task that is overdue by the server's rule, and every such
      task has its id listed. */
  lemma OverdueIdsExact(tasks: seq<TaskView>, now: int)
    ensures |OverdueIds(tasks, now)| <= |PendingViews(tasks)|
    ensures forall j :: 0 <= j < |OverdueIds(tasks, now)| ==>
      exists i :: 0 <= i < |tasks| && tasks[i].id == OverdueIds(tasks, now)[j] &&
        IsOverdue(tasks[i].completed, Some(tasks[i].dueDate), now)
    ensures forall i :: 0 <= i < |tasks| && IsOverdue(tasks[i].completed, Some(tasks[i].dueDate), now) ==>
      tasks[i].id in OverdueIds(tasks, now)
  {
    var p := PendingViews(tasks);
    var o := Filter(p, ViewDueBefore(now));
    var ids := OverdueIds(tasks, now);
    FilterMembers(tasks, ViewPending);
    FilterMembers(p, ViewDueBefore(now));
    forall j | 0 <= j < |ids|
      ensures exists i :: 0 <= i < |tasks| && tasks[i].id == ids[j] && IsOverdue(tasks[i].completed, Some(tasks[i].dueDate), now)
    {
      var v := o[j];
      assert v in p && ViewDueBefore(now)(v);
      assert v in tasks && ViewPending(v);
      var i :| 0 <= i < |tasks| && tasks[i] == v;
      assert tasks[i].id == ids[j];
    }
    forall i | 0 <= i < |tasks| && IsOverdue(tasks[i].completed, Some(tasks[i].dueDate), now)
      ensures tasks[i].id in ids
    {
      var v := tasks[i];
      assert ViewPending(v);
      assert v in p;
      var k :| 0 <= k < |p| && p[k] == v;
      assert v in o;
      var j :| 0 <= j < |o| && o[j] == v;
      assert ids[j] == v.id;
    }
  }

  /** The `metadata` of `get_task_recommendations`: the counts are comprehensions and the
      overdue ids are collected by a loop over the pending tasks. */
  method RecommendationMetadataOf(tasks: seq<TaskView>, now: int) returns (m: RecommendationMetadata)
    ensures m.totalPendingTasks == |PendingViews(tasks)|
    ensures m.highPriorityTasks == |Filter(PendingViews(tasks), ViewHighPriority)|
    ensures m.overdueTaskIds == OverdueIds(tasks, now)
    ensures m.overdueTasks == |m.overdueTaskIds|
    ensures m.overdueTasks <= m.totalPendingTasks && m.highPriorityTasks <= m.totalPendingTasks
  {
    var pending := PendingViews(tasks);
    var high := |Filter(pending, ViewHighPriority)|;
    var overdue: seq<int> := [];
    for i := 0 to |pending|
      invariant overdue == Map(Filter(pending[..i], ViewDueBefore(now)), ViewId)
    {
      var v := pending[i];
      OverdueStep(pending, i, now);
      if v.dueDate < now {
        overdue := overdue + [v.id];
      }
    }
    assert pending[..|pending|] == pending;
    m := RecommendationMetadata(|pending|, high, |overdue|, overdue);
  }

  /** One step of the overdue loop: the prefix grows by one task. */
  lemma OverdueStep(pending: seq<TaskView>, i: int, now: int)
    requires 0 <= i < |pending|
    ensures Map(Filter(pending[..i + 1], ViewDueBefore(now)), ViewId)
      == Map(Filter(pending[..i], ViewDueBefore(now)), ViewId)
         + (if pending[i].dueDate < now then [pending[i].id] else [])
  {
    var p := ViewDueBefore(now);
    FilterSnoc(pending[..i], pending[i], p);
    assert pending[..i + 1] == pending[..i] + [pending[i]];
    var last := if p(pending[i]) then [pending[i]] else [];
    MapAppend(Filter(pending[..i], p), last, ViewId);
  }

  // ---------------------------------------------------------------------------
  // The task list handed to the prompt builders

  /** How a TaskResponse reaches `format_task_details` as written: its tags and sub-tasks are
      already a list and a dict, a non-empty one passes the truthiness test, and `json.loads`
      of a value that is not text raises `TypeError`, which is caught. */
  function JsonFieldAsWritten<T>(x: Option<seq<T>>): Option<JsonText<seq<T>>> {
    if x.Some? && x.value != [] then Some(Unparsable) else None
  }

  function PromptInputAsWritten(v: TaskView): Task {
    Task(v.id, v.title, v.description, Some(v.dueDate), v.completed, v.createdAt, None, v.priority,
      JsonFieldAsWritten(v.tags), JsonFieldAsWritten(v.miniTasks))
  }

  /** As written, no prompt ever shows a task's tags or its sub-task progress. */
  lemma PromptOmitsTagsAsWritten(v: TaskView, now: int)
    ensures forall tags :: GptAgent.TagsLine(tags) !in GptAgent.TaskDetails(PromptInputAsWritten(v), now)
    ensures forall done, total :: GptAgent.SubTasksLine(done, total) !in GptAgent.TaskDetails(PromptInputAsWritten(v), now)
  {
    GptAgent.TagsLineIff(PromptInputAsWritten(v), now);
    GptAgent.SubTaskCountLine(PromptInputAsWritten(v), now);
  }

  /** A task with one tag whose tag line is lost on the way into the prompt. */
  lemma PromptDropsTagExample(now: int)
    ensures var v := TaskView(1, "Write report", None, 0, false, 0, None, Some(["work"]), None);
      GptAgent.TagsLine(["work"]) !in GptAgent.TaskDetails(PromptInputAsWritten(v), now)
      && GptAgent.TagsLine(["work"]) in GptAgent.TaskDetails(PromptInput(v), now)
  {
    var v := TaskView(1, "Write report", None, 0, false, 0, None, Some(["work"]), None);
    PromptOmitsTagsAsWritten(v, now);
    GptAgent.TagsLineIff(PromptInput(v), now);
  }

  /** The intended hand-over: the decoded lists reach the builders as decoded values. */
  function JsonField<T>(x: Option<seq<T>>): Option<JsonText<seq<T>>> {
    if x.Some? then Some(Encoded(x.value)) else None
  }

  function PromptInput(v: TaskView): Task {
    Task(v.id, v.title, v.description, Some(v.dueDate), v.completed, v.createdAt, None, v.priority,
      JsonField(v.tags), JsonField(v.miniTasks))
  }

  /** With the intended hand-over, the tag line shows exactly a task's non-empty tag list and
      the sub-task line its progress. */
  lemma PromptShowsTags(v: TaskView, now: int)
    ensures forall tags :: GptAgent.TagsLine(tags) in GptAgent.TaskDetails(PromptInput(v), now) <==> v.tags == Some(tags) && tags != []
    ensures forall done, total :: GptAgent.SubTasksLine(done, total) in GptAgent.TaskDetails(PromptInput(v), now) <==>
      v.miniTasks.Some? && v.miniTasks.value != [] && done == GptAgent.CountDone(v.miniTasks.value) && total == |v.miniTasks.value|
  {
    GptAgent.TagsLineIff(PromptInput(v), now);
    GptAgent.SubTaskCountLine(PromptInput(v), now);
  }

  function TaskId(t: Task): int {
    t.id
  }

  /** The endpoint's overdue ids are the ids of the tasks the summary prompt lists as overdue:
      both follow the one overdue rule. */
  lemma SameOverdueRule(tasks: seq<TaskView>, now: int)
    ensures OverdueIds(tasks, now)
      == Map(GptAgent.OverdueTasks(GptAgent.PendingTasks(Map(tasks, PromptInputAsWritten)), now), TaskId)
  {
    var pending := PendingViews(tasks);
    FilterMap(tasks, PromptInputAsWritten, ViewPending, GptAgent.IsPending);
    FilterMap(pending, PromptInputAsWritten, ViewDueBefore(now), GptAgent.DueBefore(now));
    var o := Filter(pending, ViewDueBefore(now));
    MapCompose(o, PromptInputAsWritten, TaskId, ViewId);
  }

  // ---------------------------------------------------------------------------
  // Endpoints

  datatype SummaryResponse = SummaryResponse(prompt: GptAgent.Prompt, metadata: SummaryMetadata)

  datatype RecommendationResponse = RecommendationResponse(prompt: GptAgent.Prompt, metadata: RecommendationMetadata)

  /** `get_project_summary` up to the generator call: the prompt built from the task list
      as it is handed over, and the metadata computed from the same list. */
  method GetProjectSummary(tasks: seq<TaskView>, now: int) returns (r: SummaryResponse)
    ensures r.prompt == GptAgent.SummaryPrompt(Map(tasks, PromptInputAsWritten), now)
    ensures r.metadata == SummaryMetadataOf(tasks)
    ensures tasks == [] <==> r.prompt == GptAgent.NoTasksSummary
  {
    var prompt := GptAgent.BuildPromptSummary(Map(tasks, PromptInputAsWritten), now);
    r := SummaryResponse(prompt, SummaryMetadataOf(tasks));
  }

  /** `get_task_recommendations` up to the generator call. */
  method GetTaskRecommendations(tasks: seq<TaskView>, now: int) returns (r: RecommendationResponse)
    ensures r.prompt == GptAgent.RecommendationPrompt(Map(tasks, PromptInputAsWritten), now)
    ensures var pending := PendingViews(tasks);
      r.metadata == RecommendationMetadata(|pending|, |Filter(pending, ViewHighPriority)|,
        |OverdueIds(tasks, now)|, OverdueIds(tasks, now))
    ensures r.metadata.overdueTasks <= r.metadata.totalPendingTasks
    ensures r.metadata.highPriorityTasks <= r.metadata.totalPendingTasks
  {
    var prompt := GptAgent.BuildPromptRecommendation(Map(tasks, PromptInputAsWritten), now);
    var metadata := RecommendationMetadataOf(tasks, now);
    r := RecommendationResponse(prompt, metadata);
  }

  /** As the endpoints hand tasks over, no detail line of any prompt shows a task's tags or
      its sub-task progress. */
  lemma EndpointDetailsOmitTags(tasks: seq<TaskView>, now: int)
    ensures forall i, tags :: 0 <= i < |tasks| ==>
      GptAgent.TagsLine(tags) !in GptAgent.TaskDetails(Map(tasks, PromptInputAsWritten)[i], now)
    ensures forall i, done, total :: 0 <= i < |tasks| ==>
      GptAgent.SubTasksLine(done, total) !in GptAgent.TaskDetails(Map(tasks, PromptInputAsWritten)[i], now)
  {
    forall i | 0 <= i < |tasks| ensures Map(tasks, PromptInputAsWritten)[i] == PromptInputAsWritten(tasks[i]) {
    }
    forall i | 0 <= i < |tasks| {
      PromptOmitsTagsAsWritten(tasks[i], now);
    }
  }
}

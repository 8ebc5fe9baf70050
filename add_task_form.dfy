/**
 * The new-task form: its tag list, kept free of blanks and duplicates, and the
 * request body it submits.
 */
module AddTaskForm {
  import opened Wrappers
  import opened Strings
  import opened Seqs
  import opened TaskModel
  import TaskService

  /** The tag list and the tag input field. */
  datatype TagInput = TagInput(tags: seq<string>, current: string)

  /** What every tag list the form builds satisfies: no blank tag, no tag with surrounding
      white space, no tag twice. */
  predicate WellFormedTags(tags: seq<string>) {
    (forall i :: 0 <= i < |tags| ==> !IsBlank(tags[i]) && Strip(tags[i]) == tags[i]) &&
    NoDuplicates(tags)
  }

  /** `handleAddTag`: a non-blank tag not yet listed is appended trimmed and the input
      cleared; otherwise nothing changes. */
  function AddTag(s: TagInput): (r: TagInput)
    ensures !IsBlank(s.current) && Strip(s.current) !in s.tags ==>
      r.current == "" && |r.tags| == |s.tags| + 1 && r.tags[..|s.tags|] == s.tags && r.tags[|s.tags|] == Strip(s.current)
    ensures IsBlank(s.current) || Strip(s.current) in s.tags ==> r == s
  {
    if !IsBlank(s.current) && Strip(s.current) !in s.tags then TagInput(s.tags + [Strip(s.current)], "")
    else s
  }

  /** `handleRemoveTag`: the tag goes, the others stay in order; the input is untouched. */
  function RemoveTag(s: TagInput, tag: string): (r: TagInput)
    ensures tag !in r.tags && r.current == s.current
    ensures forall y :: y != tag ==> multiset(r.tags)[y] == multiset(s.tags)[y]
  {
    TagInput(Without(s.tags, tag), s.current)
  }

  /** Adding keeps the tag list well formed. */
  lemma AddTagPreserves(s: TagInput)
    requires WellFormedTags(s.tags)
    ensures WellFormedTags(AddTag(s).tags)
  {
    if !IsBlank(s.current) && Strip(s.current) !in s.tags {
      StripIdempotent(s.current);
      var t := AddTag(s).tags;
      forall i, j | 0 <= i < j < |t|
        ensures t[i] != t[j]
      {
        if j == |s.tags| {
          assert t[i] == s.tags[i];
        }
      }
    }
  }

  /** Removing keeps the tag list well formed. */
  lemma RemoveTagPreserves(s: TagInput, tag: string)
    requires WellFormedTags(s.tags)
    ensures WellFormedTags(RemoveTag(s, tag).tags)
  {
    var t := RemoveTag(s, tag).tags;
    forall i | 0 <= i < |t|
      ensures !IsBlank(t[i]) && Strip(t[i]) == t[i]
    {
      assert multiset(t)[t[i]] > 0;
      assert t[i] in multiset(s.tags);
      var k :| 0 <= k < |s.tags| && s.tags[k] == t[i];
    }
    WithoutNoDuplicates(s.tags, tag);
  }

  // ---------------------------------------------------------------------------
  // Submission

  /** The `CreateTaskRequest` body. There is no `mini_tasks` member. */
  datatype Payload = Payload(
    title: string, dueDate: string, description: Option<string>,
    priority: Option<Priority>, tags: Option<seq<string>>)

  /** `handleSubmit`: nothing without a non-blank title and a due date; otherwise the body,
      with the optional members present only when they carry something. */
  function Submit(title: string, description: string, dueDate: string, priority: Option<Priority>,
                  tags: seq<string>): (r: Option<Payload>)
    ensures r.None? <==> IsBlank(title) || dueDate == ""
    ensures r.Some? ==> r.value.title == Strip(title) && r.value.dueDate == dueDate
    ensures r.Some? ==> (r.value.description.Some? <==> !IsBlank(description))
    ensures r.Some? && r.value.description.Some? ==> r.value.description.value == Strip(description)
    ensures r.Some? ==> r.value.priority == priority
    ensures r.Some? ==> (r.value.tags.Some? <==> tags != []) && (r.value.tags.Some? ==> r.value.tags.value == tags)
  {
    if IsBlank(title) || dueDate == "" then None
    else
      Some(Payload(
        Strip(title),
        dueDate,
        if !IsBlank(description) then Some(Strip(description)) else None,
        priority,
        if |tags| > 0 then Some(tags) else None))
  }

  /** A body the form submits passes the server's validation, and the server stores its title,
      description and tags as sent: the two sides normalise alike. `due` is the entered date
      as the server reads it. */
  lemma SubmittedPayloadAccepted(title: string, description: string, dueDate: string, priority: Option<Priority>,
                                 tags: seq<string>, p: Payload, due: int, id: int, now: int)
    requires Submit(title, description, dueDate, priority, tags) == Some(p)
    ensures TaskService.NewTask(id, p.title, p.description, Some(due), p.priority, p.tags, None, now).Ok?
    ensures var t := TaskService.NewTask(id, p.title, p.description, Some(due), p.priority, p.tags, None, now).value;
      t.title == p.title && t.description == p.description && t.miniTasks == None &&
      TaskService.View(t).tags == p.tags
  {
    StripIdempotent(title);
    assert p.title == Strip(title) && !IsBlank(p.title);
    var r := TaskService.NewTask(id, p.title, p.description, Some(due), p.priority, p.tags, None, now);
    assert r.Ok?;
    if p.description.Some? {
      StripIdempotent(description);
      assert p.description.value == Strip(description) != "";
    }
    assert r.value.title == Strip(p.title);
    assert r.value.description == p.description;
  }
}

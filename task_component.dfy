/**
 * The edits the task card sends to the server: sub-task (mini-task) additions,
 * toggles and deletions, tag additions and deletions, description saves, and the
 * colour of the priority badge. Each handler yields the update request it would
 * send, an alert, or nothing.
 */
module TaskComponent {
  import opened Wrappers
  import opened Strings
  import opened Seqs
  import opened TaskModel
  import TaskService
  import GptAgent

  /** What a handler does: nothing, an alert without a request, or one update request. */
  datatype Outcome = Ignored | Alerted | Update(id: int, patch: TaskService.Patch)

  /** `!id` is true for a missing id and for id 0 alike. */
  predicate HasId(id: Option<int>) {
    id.Some? && id.value != 0
  }

  // ---------------------------------------------------------------------------
  // Sub-task objects: a JavaScript object keeps its keys in insertion order

  /** The value stored under `k`, if any. */
  function ValueOf(m: MiniTasks, k: string): Option<bool> {
    if m == [] then None
    else if m[0].0 == k then Some(m[0].1)
    else ValueOf(m[1..], k)
  }

  /** `{...m, [k]: v}`: an existing key keeps its place, a new one goes last. */
  function SetEntry(m: MiniTasks, k: string, v: bool): (r: MiniTasks)
    ensures ValueOf(r, k) == Some(v)
    ensures forall other :: other != k ==> ValueOf(r, other) == ValueOf(m, other)
    ensures ValueOf(m, k).None? ==> r == m + [(k, v)]
    ensures ValueOf(m, k).Some? ==> |r| == |m|
  {
    if m == [] then [(k, v)]
    else if m[0].0 == k then [(k, v)] + m[1..]
    else [m[0]] + SetEntry(m[1..], k, v)
  }

  /** Setting a value keeps the names distinct. */
  lemma {:induction false} SetEntryKeepsDistinct(m: MiniTasks, k: string, v: bool)
    requires DistinctKeys(m)
    ensures DistinctKeys(SetEntry(m, k, v))
  {
    var r := SetEntry(m, k, v);
    if m != [] && m[0].0 != k {
      var rest := SetEntry(m[1..], k, v);
      assert DistinctKeys(m[1..]) by {
        forall i, j | 0 <= i < j < |m[1..]| ensures m[1..][i].0 != m[1..][j].0 {
          assert m[1..][i] == m[i + 1] && m[1..][j] == m[j + 1];
        }
      }
      SetEntryKeepsDistinct(m[1..], k, v);
      forall j | 0 <= j < |rest|
        ensures rest[j].0 != m[0].0
      {
        NameOccurs(rest, j);
        if rest[j].0 != k {
          NameOccursBack(m[1..], rest[j].0);
        }
      }
      assert r == [m[0]] + rest;
      forall i, j | 0 <= i < j < |r| ensures r[i].0 != r[j].0 {
        assert r[j] == rest[j - 1];
        if i > 0 {
          assert r[i] == rest[i - 1];
        }
      }
    } else if m != [] {
      forall i, j | 0 <= i < j < |r| ensures r[i].0 != r[j].0 {
        assert r[j] == m[j];
        if i > 0 {
          assert r[i] == m[i];
        }
      }
    }
  }

  /** A name stored at some position has a value. */
  lemma {:induction false} NameOccurs(m: MiniTasks, j: int)
    requires 0 <= j < |m|
    ensures ValueOf(m, m[j].0).Some?
  {
    if j > 0 && m[0].0 != m[j].0 {
      NameOccurs(m[1..], j - 1);
    }
  }

  /** A name with a value is stored at some position. */
  lemma {:induction false} NameOccursBack(m: MiniTasks, k: string)
    requires ValueOf(m, k).Some?
    ensures exists j :: 0 <= j < |m| && m[j].0 == k
  {
    if m[0].0 != k {
      NameOccursBack(m[1..], k);
      var j :| 0 <= j < |m[1..]| && m[1..][j].0 == k;
      assert m[j + 1].0 == k;
    }
  }

  /** `delete copy[k]` on a copy of `m`. */
  function RemoveEntry(m: MiniTasks, k: string): (r: MiniTasks)
    ensures ValueOf(r, k) == None
    ensures forall other :: other != k ==> ValueOf(r, other) == ValueOf(m, other)
    ensures |r| <= |m|
    ensures ValueOf(m, k).None? ==> r == m
  {
    if m == [] then []
    else if m[0].0 == k then RemoveEntry(m[1..], k)
    else [m[0]] + RemoveEntry(m[1..], k)
  }

  /** Flipping a sub-task with the status shown, then flipping it back with the new status,
      restores the object. */
  lemma {:induction false} ToggleTwiceRestores(m: MiniTasks, k: string, b: bool)
    requires ValueOf(m, k) == Some(b)
    ensures SetEntry(SetEntry(m, k, !b), k, b) == m
  {
    if m[0].0 != k {
      ToggleTwiceRestores(m[1..], k, b);
    }
  }

  /** A `null` object spreads as the empty one. */
  function SpreadOf(m: Option<MiniTasks>): MiniTasks {
    if m.Some? then m.value else []
  }

  function MiniTasksPatch(m: MiniTasks): TaskService.Patch {
    TaskService.NoChange.(miniTasks := Some(m))
  }

  /** `handleAddMiniTask`: the trimmed name is set to not done, every other sub-task kept. */
  function AddMiniTask(miniTasks: Option<MiniTasks>, input: string, id: Option<int>): (r: Outcome)
    ensures IsBlank(input) || !HasId(id) ==> r == Ignored
    ensures !IsBlank(input) && HasId(id) ==> (
      r.Update? && r.id == id.value &&
      r.patch == TaskService.NoChange.(miniTasks := r.patch.miniTasks) && r.patch.miniTasks.Some? &&
      ValueOf(r.patch.miniTasks.value, Strip(input)) == Some(false) &&
      forall k :: k != Strip(input) ==> ValueOf(r.patch.miniTasks.value, k) == ValueOf(SpreadOf(miniTasks), k))
  {
    if IsBlank(input) || !HasId(id) then Ignored
    else Update(id.value, MiniTasksPatch(SetEntry(SpreadOf(miniTasks), Strip(input), false)))
  }

  /** `handleToggleMiniTask`: the named sub-task gets the negation of the status the card
      passed in; every other one is kept. */
  function ToggleMiniTask(miniTasks: Option<MiniTasks>, name: string, currentStatus: bool, id: Option<int>): (r: Outcome)
    ensures !HasId(id) ==> r == Ignored
    ensures HasId(id) ==> (
      r.Update? && r.id == id.value &&
      r.patch == TaskService.NoChange.(miniTasks := r.patch.miniTasks) && r.patch.miniTasks.Some? &&
      ValueOf(r.patch.miniTasks.value, name) == Some(!currentStatus) &&
      forall k :: k != name ==> ValueOf(r.patch.miniTasks.value, k) == ValueOf(SpreadOf(miniTasks), k))
  {
    if !HasId(id) then Ignored
    else Update(id.value, MiniTasksPatch(SetEntry(SpreadOf(miniTasks), name, !currentStatus)))
  }

  /** `handleDeleteMiniTask`: exactly the named sub-task goes. */
  function DeleteMiniTask(miniTasks: Option<MiniTasks>, name: string, id: Option<int>): (r: Outcome)
    ensures !HasId(id) ==> r == Ignored
    ensures HasId(id) ==> (
      r.Update? && r.id == id.value &&
      r.patch == TaskService.NoChange.(miniTasks := r.patch.miniTasks) && r.patch.miniTasks.Some? &&
      ValueOf(r.patch.miniTasks.value, name) == None &&
      forall k :: k != name ==> ValueOf(r.patch.miniTasks.value, k) == ValueOf(SpreadOf(miniTasks), k))
  {
    if !HasId(id) then Ignored
    else Update(id.value, MiniTasksPatch(RemoveEntry(SpreadOf(miniTasks), name)))
  }

  // ---------------------------------------------------------------------------
  // Tags

  function TagsPatch(tags: seq<string>): TaskService.Patch {
    TaskService.NoChange.(tags := Some(tags))
  }

  /** `handleDeleteTag`: every occurrence of the tag goes. A `null` tag list makes `filter`
      throw, which ends in an alert. */
  function DeleteTag(tags: Option<seq<string>>, tag: string, id: Option<int>): (r: Outcome)
    ensures !HasId(id) ==> r == Ignored
    ensures HasId(id) && tags.None? ==> r == Alerted
    ensures HasId(id) && tags.Some? ==> (
      r.Update? && r.id == id.value &&
      r.patch == TaskService.NoChange.(tags := r.patch.tags) && r.patch.tags.Some? &&
      tag !in r.patch.tags.value &&
      forall y :: y != tag ==> multiset(r.patch.tags.value)[y] == multiset(tags.value)[y])
  {
    if !HasId(id) then Ignored
    else if tags.None? then Alerted
    else Update(id.value, TagsPatch(Without(tags.value, tag)))
  }

  /** `Array.isArray(tags) ? tags : []`. */
  function CurrentTags(tags: Option<seq<string>>): seq<string> {
    if tags.Some? then tags.value else []
  }

  /** `handleAddTag`: a blank tag is ignored, a present one alerts, and otherwise the trimmed
      tag is appended. */
  function AddTag(tags: Option<seq<string>>, input: string, id: Option<int>): (r: Outcome)
    ensures IsBlank(input) || !HasId(id) ==> r == Ignored
    ensures !IsBlank(input) && HasId(id) && Strip(input) in CurrentTags(tags) ==> r == Alerted
    ensures !IsBlank(input) && HasId(id) && Strip(input) !in CurrentTags(tags) ==>
      r == Update(id.value, TagsPatch(CurrentTags(tags) + [Strip(input)]))
    ensures r.Update? && NoDuplicates(CurrentTags(tags)) ==> NoDuplicates(r.patch.tags.value)
  {
    if IsBlank(input) || !HasId(id) then Ignored
    else if Strip(input) in CurrentTags(tags) then Alerted
    else Update(id.value, TagsPatch(CurrentTags(tags) + [Strip(input)]))
  }

  // ---------------------------------------------------------------------------
  // Description and priority

  /** `handleDescriptionSave`: a blank value is sent as a single space, any other value as
      typed. */
  function SaveDescription(value: string, id: Option<int>): (r: Outcome)
    ensures !HasId(id) ==> r == Ignored
    ensures HasId(id) ==> r.Update? && r.id == id.value && r.patch == TaskService.NoChange.(description := r.patch.description)
    ensures HasId(id) && IsBlank(value) ==> r.patch.description == Some(" ")
    ensures HasId(id) && !IsBlank(value) ==> r.patch.description == Some(value)
  {
    if !HasId(id) then Ignored
    else Update(id.value, TaskService.NoChange.(description := Some(if IsBlank(value) then " " else value)))
  }

  /** Saving a blank description leaves an empty description on the server, which the prompt
      builder then omits; any other value is stored trimmed and shown. */
  lemma SavedDescriptionOnServer(t: Task, value: string, id: int, now: int)
    requires id != 0 && TaskService.Stored(t)
    ensures var u := TaskService.Patched(t, SaveDescription(value, Some(id)).patch).value;
      (IsBlank(value) ==> u.description == Some("") && GptAgent.DescriptionLines(u) == []) &&
      (!IsBlank(value) ==> u.description == Some(Strip(value)))
  {
    assert IsBlank(" ") by {
      assert TrimStart(" ") == "";
    }
  }

  datatype Color = Green | Yellow | Red | White

  /** `getPriorityColor`. */
  function PriorityColor(p: Option<Priority>): (c: Color)
    ensures c == White <==> p.None?
  {
    match p
    case Some(Low) => Green
    case Some(Medium) => Yellow
    case Some(High) => Red
    case None => White
  }

  /** Each priority has a colour of its own. */
  lemma PriorityColorInjective(p: Option<Priority>, q: Option<Priority>)
    ensures PriorityColor(p) == PriorityColor(q) ==> p == q
  {
  }
}

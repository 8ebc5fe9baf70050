/**
 * The task list order on the main page: a copy of the list sorted by due date,
 * priority or title, ascending or descending.
 */
module MainPage {
  import opened Strings
  import opened TaskModel
  import opened Wrappers

  /** The fields of a listed task the order looks at; the due date as a timestamp. */
  datatype ClientTask = ClientTask(title: string, dueDate: int, priority: Option<Priority>)

  datatype SortField = DueDate | PriorityField | Title

  datatype SortDirection = Asc | Desc

  /** `priorityOrder[p] || 0`. */
  function Rank(p: Option<Priority>): (r: nat)
    ensures r <= 3
    ensures r == 0 <==> p.None?
  {
    match p
    case Some(High) => 3
    case Some(Medium) => 2
    case Some(Low) => 1
    case None => 0
  }

  /** A higher priority always ranks above a lower one, and any priority above none. */
  lemma RankOrder()
    ensures Rank(Some(High)) > Rank(Some(Medium)) > Rank(Some(Low)) > Rank(None)
  {
  }

  /** The comparator passed to `sort`: negative when `a` goes first. `Compare` stands in for
      `localeCompare`. */
  function Comparison(field: SortField, dir: SortDirection, a: ClientTask, b: ClientTask): int {
    var c :=
      match field
      case DueDate => a.dueDate - b.dueDate
      case PriorityField => Rank(a.priority) - Rank(b.priority)
      case Title => Compare(a.title, b.title);
    if dir == Asc then c else -c
  }

  /** Swapping the arguments negates the comparison, so descending order is ascending order
      read with the arguments swapped. */
  lemma ComparisonAntisymmetric(field: SortField, dir: SortDirection, a: ClientTask, b: ClientTask)
    ensures Comparison(field, dir, a, b) == -Comparison(field, dir, b, a)
    ensures Comparison(field, Desc, a, b) == Comparison(field, Asc, b, a)
  {
    CompareAntisymmetric(a.title, b.title);
  }

  lemma ComparisonTransitive(field: SortField, dir: SortDirection, a: ClientTask, b: ClientTask, c: ClientTask)
    requires Comparison(field, dir, a, b) <= 0 && Comparison(field, dir, b, c) <= 0
    ensures Comparison(field, dir, a, c) <= 0
  {
    if field == Title {
      if dir == Asc {
        CompareTransitive(a.title, b.title, c.title);
      } else {
        CompareAntisymmetric(a.title, b.title);
        CompareAntisymmetric(b.title, c.title);
        CompareAntisymmetric(a.title, c.title);
        CompareTransitive(c.title, b.title, a.title);
      }
    }
  }

  predicate Ordered(field: SortField, dir: SortDirection, s: seq<ClientTask>) {
    forall i, j :: 0 <= i < j < |s| ==> Comparison(field, dir, s[i], s[j]) <= 0
  }

  /** Places `x` after every element that does not compare above it. Unlike the cache's key
      sort, the comparator admits ties, so equal tasks keep their input order. */
  function Insert(field: SortField, dir: SortDirection, x: ClientTask, s: seq<ClientTask>): (r: seq<ClientTask>)
    ensures |r| == |s| + 1
    ensures multiset(r) == multiset(s) + multiset{x}
  {
    if s == [] then [x]
    else if Comparison(field, dir, x, s[0]) < 0 then [x] + s
    else
      assert s == [s[0]] + s[1..];
      [s[0]] + Insert(field, dir, x, s[1..])
  }

  /** An element that compares below `x` and below every element of `s` compares below every
      element of `Insert(x, s)`. */
  lemma {:induction false} InsertBelow(field: SortField, dir: SortDirection, h: ClientTask, x: ClientTask, s: seq<ClientTask>)
    requires Comparison(field, dir, h, x) <= 0
    requires forall k :: 0 <= k < |s| ==> Comparison(field, dir, h, s[k]) <= 0
    ensures forall k :: 0 <= k < |Insert(field, dir, x, s)| ==> Comparison(field, dir, h, Insert(field, dir, x, s)[k]) <= 0
  {
    if s != [] && Comparison(field, dir, x, s[0]) >= 0 {
      var t := Insert(field, dir, x, s[1..]);
      InsertBelow(field, dir, h, x, s[1..]);
      assert Insert(field, dir, x, s) == [s[0]] + t;
    }
  }

  /** An ordered list stays ordered with an element in front that compares below all of it. */
  lemma OrderedCons(field: SortField, dir: SortDirection, h: ClientTask, t: seq<ClientTask>)
    requires Ordered(field, dir, t)
    requires forall k :: 0 <= k < |t| ==> Comparison(field, dir, h, t[k]) <= 0
    ensures Ordered(field, dir, [h] + t)
  {
    var r := [h] + t;
    forall i, j | 0 <= i < j < |r|
      ensures Comparison(field, dir, r[i], r[j]) <= 0
    {
      assert r[j] == t[j - 1];
      if i > 0 {
        assert r[i] == t[i - 1];
      }
    }
  }

  lemma {:induction false} InsertOrdered(field: SortField, dir: SortDirection, x: ClientTask, s: seq<ClientTask>)
    requires Ordered(field, dir, s)
    ensures Ordered(field, dir, Insert(field, dir, x, s))
  {
    if s == [] {
    } else if Comparison(field, dir, x, s[0]) < 0 {
      forall k | 0 <= k < |s|
        ensures Comparison(field, dir, x, s[k]) <= 0
      {
        if k > 0 {
          ComparisonTransitive(field, dir, x, s[0], s[k]);
        }
      }
      OrderedCons(field, dir, x, s);
    } else {
      var rest := s[1..];
      ComparisonAntisymmetric(field, dir, x, s[0]);
      assert Ordered(field, dir, rest) by {
        forall i, j | 0 <= i < j < |rest| ensures Comparison(field, dir, rest[i], rest[j]) <= 0 {
          assert rest[i] == s[i + 1] && rest[j] == s[j + 1];
        }
      }
      forall k | 0 <= k < |rest| ensures Comparison(field, dir, s[0], rest[k]) <= 0 {
        assert rest[k] == s[k + 1];
      }
      InsertOrdered(field, dir, x, rest);
      InsertBelow(field, dir, s[0], x, rest);
      OrderedCons(field, dir, s[0], Insert(field, dir, x, rest));
    }
  }

  /** `[...tasks].sort(comparator)`: a stable sort of a copy, so `tasks` itself keeps its
      order; an empty list gives an empty list. */
  function SortedTasks(field: SortField, dir: SortDirection, tasks: seq<ClientTask>): (r: seq<ClientTask>)
    ensures multiset(r) == multiset(tasks) && |r| == |tasks|
    ensures tasks == [] ==> r == []
  {
    if tasks == [] then []
    else
      var front := tasks[..|tasks| - 1];
      assert tasks == front + [tasks[|tasks| - 1]];
      Insert(field, dir, tasks[|tasks| - 1], SortedTasks(field, dir, front))
  }

  /** The sorted list is in comparator order. */
  lemma {:induction false} SortedTasksOrdered(field: SortField, dir: SortDirection, tasks: seq<ClientTask>)
    ensures Ordered(field, dir, SortedTasks(field, dir, tasks))
  {
    if tasks != [] {
      var front := tasks[..|tasks| - 1];
      SortedTasksOrdered(field, dir, front);
      InsertOrdered(field, dir, tasks[|tasks| - 1], SortedTasks(field, dir, front));
    }
  }

  /** Ascending by due date, due dates never decrease down the list; descending by priority,
      ranks never increase; ascending by title, titles never go back in the order. */
  lemma SortedByKey(tasks: seq<ClientTask>)
    ensures var r := SortedTasks(DueDate, Asc, tasks);
      forall i, j :: 0 <= i < j < |r| ==> r[i].dueDate <= r[j].dueDate
    ensures var r := SortedTasks(PriorityField, Desc, tasks);
      forall i, j :: 0 <= i < j < |r| ==> Rank(r[i].priority) >= Rank(r[j].priority)
    ensures var r := SortedTasks(Title, Asc, tasks);
      forall i, j :: 0 <= i < j < |r| ==> Compare(r[i].title, r[j].title) <= 0
  {
    SortedTasksOrdered(DueDate, Asc, tasks);
    SortedTasksOrdered(PriorityField, Desc, tasks);
    SortedTasksOrdered(Title, Asc, tasks);
  }
}

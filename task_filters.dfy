/** The issues list filter: a case-insensitive title search joined by AND
    with three optional selections (status, board, assignee). */
module TaskFilters {
  import opened Domain
  import opened TaskLists

  /** The filter bar's selections. `None` is an empty selection. */
  datatype Criteria = Criteria(
    searchQuery: string,
    selectedStatus: Option<Status>,
    selectedBoardId: Option<int>,
    selectedAssigneeId: Option<int>)

  /** `toLowerCase` on the letters a title can hold here: Latin A-Z and the
      Cyrillic capitals, Ё and the other U+0400 to U+040F capitals included. */
  function Lower(c: char): char
  {
    if 'A' <= c <= 'Z' then (c as int + 32) as char
    else if 'А' <= c <= 'Я' then (c as int + 32) as char
    else if 'Ѐ' <= c <= 'Џ' then (c as int + 80) as char
    else c
  }

  function LowerText(s: string): (r: string)
    ensures |r| == |s|
    ensures forall i :: 0 <= i < |s| ==> r[i] == Lower(s[i])
  {
    seq(|s|, i requires 0 <= i < |s| => Lower(s[i]))
  }

  /** `hay.includes(needle)`, tried position by position. */
  function Contains(hay: string, needle: string): bool
    decreases |hay|
  {
    needle <= hay || (hay != [] && Contains(hay[1..], needle))
  }

  /** The needle occurs in the hay starting at position i. */
  predicate OccursAt(hay: string, needle: string, i: int)
  {
    0 <= i && i + |needle| <= |hay| && hay[i..i + |needle|] == needle
  }

  /** `includes` holds exactly when the needle occurs at some position. */
  lemma {:induction false} ContainsIffOccurs(hay: string, needle: string)
    ensures Contains(hay, needle) <==> exists i :: OccursAt(hay, needle, i)
  {
    PrefixOccurs(hay, needle);
    if needle <= hay {
    } else if hay == [] {
    } else {
      ContainsIffOccurs(hay[1..], needle);
      if exists i :: OccursAt(hay, needle, i) {
        var i :| OccursAt(hay, needle, i);
        ShiftOccurs(hay, needle, i - 1);
      }
      if exists j :: OccursAt(hay[1..], needle, j) {
        var j :| OccursAt(hay[1..], needle, j);
        ShiftOccurs(hay, needle, j);
      }
    }
  }

  lemma PrefixOccurs(hay: string, needle: string)
    ensures needle <= hay <==> OccursAt(hay, needle, 0)
  {
  }

  lemma ShiftOccurs(hay: string, needle: string, i: int)
    requires hay != [] && 0 <= i
    ensures OccursAt(hay[1..], needle, i) <==> OccursAt(hay, needle, i + 1)
  {
    if i + |needle| <= |hay[1..]| {
      assert hay[1..][i..i + |needle|] == hay[i + 1..i + 1 + |needle|];
    }
  }

  /** Every character of a contained needle occurs in the hay. */
  lemma ContainedCharsOccur(hay: string, needle: string, c: char)
    requires Contains(hay, needle) && c in needle
    ensures c in hay
  {
    ContainsIffOccurs(hay, needle);
    var i :| OccursAt(hay, needle, i);
    var k :| 0 <= k < |needle| && needle[k] == c;
    assert hay[i + k] == hay[i..i + |needle|][k];
  }

  /** A selection filters only when it is truthy: an absent id, or id 0, is
      no filter. */
  predicate IdSelected(sel: Option<int>)
  {
    sel.Some? && sel.value != 0
  }

  /** An empty status string is no filter either. */
  predicate StatusSelected(sel: Option<Status>)
  {
    sel.Some? && sel.value != Unlisted("")
  }

  /** One task against the four criteria. */
  predicate Matches(t: Task, c: Criteria)
  {
    && Contains(LowerText(t.title), LowerText(c.searchQuery))
    && (StatusSelected(c.selectedStatus) ==> t.status == c.selectedStatus.value)
    && (IdSelected(c.selectedBoardId) ==> t.boardId == c.selectedBoardId)
    && (IdSelected(c.selectedAssigneeId) ==> t.assignee.Some? && t.assignee.value.id == c.selectedAssigneeId.value)
  }

  /** `filteredTasks`. */
  function FilterTasks(tasks: seq<Task>, c: Criteria): (r: seq<Task>)
    ensures |r| <= |tasks|
    ensures forall t :: t in r <==> t in tasks && Matches(t, c)
  {
    Keep(tasks, (t: Task) => Matches(t, c))
  }

  /** The result is the list with some tasks left out: order kept, nothing
      added or changed. */
  lemma FilterIsSubsequence(tasks: seq<Task>, c: Criteria)
    ensures IsSubsequence(FilterTasks(tasks, c), tasks)
  {
    KeepIsSubsequence(tasks, (t: Task) => Matches(t, c));
  }

  /** Soundness: every kept task's lower-cased title contains the lower-cased
      query, and meets each truthy selection; with an assignee selected, a
      task without an assignee is never kept. */
  lemma FilterIsSound(tasks: seq<Task>, c: Criteria, t: Task)
    requires t in FilterTasks(tasks, c)
    ensures t in tasks
    ensures exists i :: OccursAt(LowerText(t.title), LowerText(c.searchQuery), i)
    ensures StatusSelected(c.selectedStatus) ==> t.status == c.selectedStatus.value
    ensures IdSelected(c.selectedBoardId) ==> t.boardId == c.selectedBoardId
    ensures IdSelected(c.selectedAssigneeId) ==> t.assignee.Some? && t.assignee.value.id == c.selectedAssigneeId.value
  {
    ContainsIffOccurs(LowerText(t.title), LowerText(c.searchQuery));
  }

  /** Completeness: a task whose title contains the query, case aside, and
      that meets every truthy selection is kept. */
  lemma FilterIsComplete(tasks: seq<Task>, c: Criteria, t: Task, i: int)
    requires t in tasks
    requires OccursAt(LowerText(t.title), LowerText(c.searchQuery), i)
    requires StatusSelected(c.selectedStatus) ==> t.status == c.selectedStatus.value
    requires IdSelected(c.selectedBoardId) ==> t.boardId == c.selectedBoardId
    requires IdSelected(c.selectedAssigneeId) ==> t.assignee.Some? && t.assignee.value.id == c.selectedAssigneeId.value
    ensures t in FilterTasks(tasks, c)
  {
    ContainsIffOccurs(LowerText(t.title), LowerText(c.searchQuery));
  }

  lemma {:induction false} KeepEverything(s: seq<Task>, p: Task -> bool)
    requires forall t :: t in s ==> p(t)
    ensures Keep(s, p) == s
  {
    if s != [] {
      assert s[0] in s;
      KeepEverything(s[1..], p);
      assert s == [s[0]] + s[1..];
    }
  }

  /** An empty query with no truthy selection, 0 ids and an empty status
      included, keeps the whole list. */
  lemma EmptyCriteriaKeepAll(tasks: seq<Task>, c: Criteria)
    requires c.searchQuery == []
    requires !StatusSelected(c.selectedStatus) && !IdSelected(c.selectedBoardId) && !IdSelected(c.selectedAssigneeId)
    ensures FilterTasks(tasks, c) == tasks
  {
    forall t | t in tasks ensures Matches(t, c) {
      assert [] <= LowerText(t.title);
    }
    KeepEverything(tasks, (t: Task) => Matches(t, c));
  }

  const SearchTitleHit := "Разработать компонент авторизации"
  const SearchTitleMiss := "Настроить API для профиля пользователя"
  const SearchQuery := "авторизации"

  lemma SearchHit()
    ensures Contains(LowerText(SearchTitleHit), LowerText(SearchQuery))
  {
    var h, q := LowerText(SearchTitleHit), LowerText(SearchQuery);
    forall k | 0 <= k < |SearchQuery| ensures q[k] == SearchQuery[k] {
      assert 'а' <= SearchQuery[k] <= 'ц';
    }
    assert q == SearchQuery;
    forall k | 0 <= k < |SearchQuery| ensures h[22 + k] == SearchQuery[k] {
      assert SearchTitleHit[22 + k] == SearchQuery[k];
      assert 'а' <= SearchQuery[k] <= 'ц';
    }
    assert OccursAt(h, q, 22);
    ContainsIffOccurs(h, q);
  }

  lemma SearchMiss()
    ensures !Contains(LowerText(SearchTitleMiss), LowerText(SearchQuery))
  {
    var h, q := LowerText(SearchTitleMiss), LowerText(SearchQuery);
    assert SearchQuery[8] == 'ц' && q[8] == Lower('ц');
    if Contains(h, q) {
      ContainedCharsOccur(h, q, 'ц');
      var k :| 0 <= k < |h| && h[k] == 'ц';
      assert false;
    }
  }

  /** Filtering a two-task list whose first task matches and whose second
      does not leaves the first. */
  lemma KeepFirstOfTwo(t1: Task, t2: Task, c: Criteria)
    requires Matches(t1, c) && !Matches(t2, c)
    ensures FilterTasks([t1, t2], c) == [t1]
  {
    var p := (t: Task) => Matches(t, c);
    assert [t1, t2][1..] == [t2];
    assert Keep([t2], p) == [];
  }

  /** The search test: typing 'авторизации' keeps 'Разработать компонент
      авторизации' and drops 'Настроить API для профиля пользователя'. */
  lemma SearchScenario()
    ensures
      var t1 := Task(1, SearchTitleHit, "", High, Backlog, Some(Assignee(101, "Иван Петров", "", "")), Some(1), "Frontend");
      var t2 := Task(2, SearchTitleMiss, "", Medium, InProgress, Some(Assignee(102, "Анна Сидорова", "", "")), Some(2), "Backend");
      FilterTasks([t1, t2], Criteria(SearchQuery, None, None, None)) == [t1]
  {
    var t1 := Task(1, SearchTitleHit, "", High, Backlog, Some(Assignee(101, "Иван Петров", "", "")), Some(1), "Frontend");
    var t2 := Task(2, SearchTitleMiss, "", Medium, InProgress, Some(Assignee(102, "Анна Сидорова", "", "")), Some(2), "Backend");
    var c := Criteria(SearchQuery, None, None, None);
    SearchHit();
    SearchMiss();
    KeepFirstOfTwo(t1, t2, c);
  }
}

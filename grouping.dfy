/** Grouping a flat task list into the three status buckets, as the
    `fetchTasksOnBoard.fulfilled` reducer and the legacy board page do. */
module Grouping {
  import opened Domain
  import opened TaskLists

  /** The tasks of `s` whose status is `st`, in list order. */
  function WithStatus(s: seq<Task>, st: Status): (r: seq<Task>)
    ensures forall t :: t in r <==> t in s && t.status == st
  {
    Keep(s, (t: Task) => t.status == st)
  }

  /** The grouping of a flat list: each column's bucket is the list's tasks of
      that status, in list order; a task of an unlisted status is in no bucket. */
  function GroupByStatus(s: seq<Task>): (g: Grouped)
    ensures WellFormed(g)
  {
    Grouped(WithStatus(s, Backlog), WithStatus(s, InProgress), WithStatus(s, Done))
  }

  lemma WithStatusSnoc(s: seq<Task>, t: Task, st: Status)
    ensures WithStatus(s + [t], st) == WithStatus(s, st) + (if t.status == st then [t] else [])
  {
    KeepAppend(s, [t], (u: Task) => u.status == st);
    assert [t][1..] == [];
  }

  /** One step of the accumulation: appending a task to the input appends it
      to the bucket of its status, and leaves the grouping alone when that
      status has no column. */
  lemma GroupSnoc(s: seq<Task>, t: Task)
    ensures t.status.Unlisted? ==> GroupByStatus(s + [t]) == GroupByStatus(s)
    ensures !t.status.Unlisted? ==>
      GroupByStatus(s + [t]) == WithBucket(GroupByStatus(s), t.status, Bucket(GroupByStatus(s), t.status) + [t])
  {
    WithStatusSnoc(s, t, Backlog);
    WithStatusSnoc(s, t, InProgress);
    WithStatusSnoc(s, t, Done);
  }

  /** Each bucket keeps the fetched order: it is a subsequence of the payload
      and holds exactly the payload's tasks of that column's status. */
  lemma GroupKeepsOrder(s: seq<Task>, c: Column)
    ensures IsSubsequence(Bucket(GroupByStatus(s), c), s)
    ensures forall t :: t in Bucket(GroupByStatus(s), c) <==> t in s && t.status == c
  {
    KeepIsSubsequence(s, (t: Task) => t.status == c);
  }

  /** Appending a task to one bucket adds it once to the flattened board. */
  lemma AppendToBucket(g: Grouped, c: Column, t: Task)
    ensures multiset(Flatten(WithBucket(g, c, Bucket(g, c) + [t]))) == multiset(Flatten(g)) + multiset{t}
  {
    var r := WithBucket(g, c, Bucket(g, c) + [t]);
    assert Flatten(r) == r.backlog + r.inProgress + r.done;
    assert multiset(Flatten(r)) == multiset(r.backlog) + multiset(r.inProgress) + multiset(r.done);
    assert multiset(Flatten(g)) == multiset(g.backlog) + multiset(g.inProgress) + multiset(g.done);
  }

  /** When every fetched task has a listed status, the buckets partition the
      payload: together they hold each task exactly as often as the payload. */
  lemma {:induction false} GroupPartitions(s: seq<Task>)
    requires forall t :: t in s ==> !t.status.Unlisted?
    ensures multiset(Flatten(GroupByStatus(s))) == multiset(s)
    ensures |Flatten(GroupByStatus(s))| == |s|
  {
    if s != [] {
      var n := |s| - 1;
      var init, t := s[..n], s[n];
      assert s == init + [t];
      assert t in s;
      GroupPartitions(init);
      GroupSnoc(init, t);
      AppendToBucket(GroupByStatus(init), t.status, t);
      assert multiset(s) == multiset(init) + multiset{t};
    }
    assert |multiset(Flatten(GroupByStatus(s)))| == |Flatten(GroupByStatus(s))|;
  }

  function MockTask(id: int, status: Status, boardName: string): Task
  {
    Task(id, "Task", "", Medium, status, None, None, boardName)
  }

  /** The fulfilled-grouping test: tasks 1 (Backlog) and 2 (InProgress) land
      in their buckets and Done stays empty; and the three-status example. */
  lemma GroupScenarios()
    ensures
      var t1, t2 := MockTask(1, Backlog, "Board 1"), MockTask(2, InProgress, "Board 1");
      GroupByStatus([t1, t2]) == Grouped([t1], [t2], [])
  {
    var t1, t2 := MockTask(1, Backlog, "Board 1"), MockTask(2, InProgress, "Board 1");
    GroupSingle(t1);
    GroupSnoc([t1], t2);
    assert [t1] + [t2] == [t1, t2];
  }

  lemma GroupSingle(t: Task)
    requires !t.status.Unlisted?
    ensures Bucket(GroupByStatus([t]), t.status) == [t]
    ensures forall c: Column :: c != t.status ==> Bucket(GroupByStatus([t]), c) == []
  {
    assert [t] == [] + [t];
    assert WithStatus([], t.status) == [];
    WithStatusSnoc([], t, Backlog);
    WithStatusSnoc([], t, InProgress);
    WithStatusSnoc([], t, Done);
  }
}

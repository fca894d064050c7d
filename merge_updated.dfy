/** Merging a server-updated task into the board (`updateExistingTask.fulfilled`). */
module MergeUpdated {
  import opened Domain
  import opened TaskLists

  /** Every bucket with the task's id filtered out. */
  function WithoutId(g: Grouped, id: int): (r: Grouped)
    ensures forall c: Column :: Bucket(r, c) == RemoveId(Bucket(g, c), id)
  {
    Grouped(RemoveId(g.backlog, id), RemoveId(g.inProgress, id), RemoveId(g.done, id))
  }

  /** The board after the update: the id is filtered out of every bucket and
      the task is pushed onto the bucket of its status, when that status has
      a bucket. */
  function MergeIntoBoard(g: Grouped, t: Task): Grouped
  {
    var cleared := WithoutId(g, t.id);
    if t.status.Unlisted? then cleared
    else WithBucket(cleared, t.status, Bucket(cleared, t.status) + [t])
  }

  /** After the merge the task's id occurs exactly once on the board, as the
      last task of the bucket of its status, when that status is a column, and
      nowhere when it is not. */
  lemma MergeLeavesIdOnce(g: Grouped, t: Task)
    ensures CountId(Flatten(MergeIntoBoard(g, t)), t.id) == if t.status.Unlisted? then 0 else 1
    ensures !t.status.Unlisted? ==>
      var b := Bucket(MergeIntoBoard(g, t), t.status); |b| > 0 && b[|b| - 1] == t
  {
    ClearedHasNoId(g, t.id);
    if !t.status.Unlisted? {
      PushCountsOnce(WithoutId(g, t.id), t.status, t);
    }
  }

  /** Filtering an id out of every bucket leaves no task with it. */
  lemma ClearedHasNoId(g: Grouped, id: int)
    ensures CountId(Flatten(WithoutId(g, id)), id) == 0
  {
    var cleared := Grouped(RemoveId(g.backlog, id), RemoveId(g.inProgress, id), RemoveId(g.done, id));
    assert cleared == WithoutId(g, id);
    NoIdCountsZero(cleared.backlog, id);
    NoIdCountsZero(cleared.inProgress, id);
    NoIdCountsZero(cleared.done, id);
    CountFlatten(cleared, id);
  }

  /** Pushing a task onto a bucket adds its id once to the board, as that
      bucket's last task. */
  lemma PushCountsOnce(g: Grouped, c: Column, t: Task)
    ensures var r := WithBucket(g, c, Bucket(g, c) + [t]);
      && CountId(Flatten(r), t.id) == CountId(Flatten(g), t.id) + 1
      && Bucket(r, c)[|Bucket(r, c)| - 1] == t
  {
    var b := Bucket(g, c);
    var r := WithBucket(g, c, b + [t]);
    assert CountId(b + [t], t.id) == CountId(b, t.id) + 1 by {
      CountIdAppend(b, [t], t.id);
      assert Ids([t]) == [t.id];
    }
    CountFlatten(g, t.id);
    CountFlatten(r, t.id);
    match c {
      case Backlog => assert r == g.(backlog := b + [t]);
      case InProgress => assert r == g.(inProgress := b + [t]);
      case Done => assert r == g.(done := b + [t]);
    }
  }

  /** The count of an id on the board is the sum of its counts per bucket. */
  lemma CountFlatten(g: Grouped, id: int)
    ensures CountId(Flatten(g), id) == CountId(g.backlog, id) + CountId(g.inProgress, id) + CountId(g.done, id)
  {
    CountIdAppend(g.backlog + g.inProgress, g.done, id);
    CountIdAppend(g.backlog, g.inProgress, id);
  }

  /** The merge moves no other task: with the updated id filtered out, every
      bucket is what it was before. */
  lemma MergeKeepsOthers(g: Grouped, t: Task, c: Column)
    ensures RemoveId(Bucket(MergeIntoBoard(g, t), c), t.id) == RemoveId(Bucket(g, c), t.id)
  {
    var cleared := RemoveId(Bucket(g, c), t.id);
    NoIdKeptAgain(Bucket(g, c), t.id);
    if c == t.status {
      RemoveIdAppend(cleared, [t], t.id);
      RemoveIdCons([t], t.id);
      assert RemoveId([t][1..], t.id) == [];
    }
  }

  lemma NoIdKeptAgain(s: seq<Task>, id: int)
    ensures RemoveId(RemoveId(s, id), id) == RemoveId(s, id)
  {
    var r := RemoveId(s, id);
    forall j | 0 <= j < |r| ensures r[j].id != id {
      assert r[j] in r;
    }
    NoIdKept(r, id);
  }

  /** The merge keeps every task in the bucket of its status. */
  lemma MergePreservesWellFormed(g: Grouped, t: Task)
    requires WellFormed(g)
    ensures WellFormed(MergeIntoBoard(g, t))
  {
  }
}

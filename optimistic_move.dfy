/** The optimistic drag-and-drop move (`optimisticallyUpdateTaskStatus`) as a
    function on the buckets, and what it guarantees. */
module OptimisticMove {
  import opened Domain
  import opened TaskLists

  /** The move: with no destination, or when the dragged id is not in the
      source bucket, nothing changes; otherwise the task is filtered out of the
      source bucket, takes the destination column as its status and is spliced
      into the destination bucket at the drop index. */
  function ApplyMove(g: Grouped, d: DropResult): (r: Grouped)
    ensures d.destination.None? ==> r == g
    ensures (forall t :: t in Bucket(g, d.source.droppableId) ==> t.id != d.draggableId) ==> r == g
  {
    if d.destination.None? then g
    else
      var src, dst := d.source.droppableId, d.destination.value.droppableId;
      match FindById(Bucket(g, src), d.draggableId)
      case None => g
      case Some(t) =>
        var g1 := WithBucket(g, src, RemoveId(Bucket(g, src), d.draggableId));
        WithBucket(g1, dst, InsertAt(Bucket(g1, dst), d.destination.value.index, t.(status := dst)))
  }

  /** The destination bucket as it stands between the removal and the splice. */
  function BeforeInsert(g: Grouped, d: DropResult): seq<Task>
    requires d.destination.Some?
  {
    var src, dst := d.source.droppableId, d.destination.value.droppableId;
    if src == dst then RemoveId(Bucket(g, src), d.draggableId) else Bucket(g, dst)
  }

  /** What a move that happens does: the source bucket loses every task with
      the dragged id (unless it is also the destination); the first such task,
      with only its status changed to the destination column, sits at the
      clamped drop index of the destination bucket, whose other tasks keep
      their order; the third bucket is untouched. */
  lemma MoveEffect(g: Grouped, d: DropResult)
    requires d.destination.Some?
    requires FindById(Bucket(g, d.source.droppableId), d.draggableId).Some?
    ensures
      var src, dst, id := d.source.droppableId, d.destination.value.droppableId, d.draggableId;
      var t := FindById(Bucket(g, src), id).value;
      var r := ApplyMove(g, d);
      var before := BeforeInsert(g, d);
      var k := SpliceStart(d.destination.value.index, |before|);
      && (src != dst ==> forall u :: u in Bucket(r, src) ==> u.id != id)
      && (src != dst ==> Bucket(r, src) == RemoveId(Bucket(g, src), id))
      && |Bucket(r, dst)| == |before| + 1
      && Bucket(r, dst)[k] == t.(status := dst)
      && Bucket(r, dst)[..k] + Bucket(r, dst)[k + 1..] == before
      && (forall c: Column :: c != src && c != dst ==> Bucket(r, c) == Bucket(g, c))
  {
    var src, dst, id := d.source.droppableId, d.destination.value.droppableId, d.draggableId;
    var idx := d.destination.value.index;
    var t := FindById(Bucket(g, src), id).value;
    var g1 := WithBucket(g, src, RemoveId(Bucket(g, src), id));
    var r := ApplyMove(g, d);
    assert r == WithBucket(g1, dst, InsertAt(Bucket(g1, dst), idx, t.(status := dst)));
    var before := BeforeInsert(g, d);
    assert Bucket(g1, dst) == before;
    var k := SpliceStart(idx, |before|);
    var b := Bucket(r, dst);
    assert b == InsertAt(before, idx, t.(status := dst));
    assert b[..k] + b[k + 1..] == before[..k] + before[k..];
    assert before == before[..k] + before[k..];
    if src != dst {
      assert Bucket(r, src) == RemoveId(Bucket(g, src), id);
    }
  }

  lemma IdsFlatten(g: Grouped)
    ensures multiset(Ids(Flatten(g))) == multiset(Ids(g.backlog)) + multiset(Ids(g.inProgress)) + multiset(Ids(g.done))
  {
    IdsAppend(g.backlog + g.inProgress, g.done);
    IdsAppend(g.backlog, g.inProgress);
  }

  /** Replacing one bucket trades its ids for the new bucket's ids. */
  lemma ReplaceBucketIds(g: Grouped, c: Column, s: seq<Task>)
    ensures multiset(Ids(Flatten(WithBucket(g, c, s)))) + multiset(Ids(Bucket(g, c)))
         == multiset(Ids(Flatten(g))) + multiset(Ids(s))
  {
    var r := WithBucket(g, c, s);
    IdsFlatten(g);
    IdsFlatten(r);
    var A, B, D := multiset(Ids(g.backlog)), multiset(Ids(g.inProgress)), multiset(Ids(g.done));
    var S := multiset(Ids(s));
    match c {
      case Backlog =>
        assert r == g.(backlog := s);
        SwapOne(S, B, D, A, A, B, D, S);
      case InProgress =>
        assert r == g.(inProgress := s);
        SwapOne(A, S, D, B, A, B, D, S);
      case Done =>
        assert r == g.(done := s);
        SwapOne(A, B, S, D, A, B, D, S);
    }
  }

  /** Multiset arithmetic behind `ReplaceBucketIds`: three parts, one of which
      (`X` before, `S` after) is exchanged. */
  lemma SwapOne(P: multiset<int>, Q: multiset<int>, R: multiset<int>, X: multiset<int>,
                A: multiset<int>, B: multiset<int>, D: multiset<int>, S: multiset<int>)
    requires (P == S && Q == B && R == D && X == A)
          || (P == A && Q == S && R == D && X == B)
          || (P == A && Q == B && R == S && X == D)
    ensures P + Q + R + X == A + B + D + S
  {
    forall x ensures (P + Q + R + X)[x] == (A + B + D + S)[x] {
    }
  }

  /** The multiset bookkeeping of a move: taking one id out of one bucket and
      putting it into another leaves the board's ids as they were. */
  lemma RelocatedId(M0: multiset<int>, M1: multiset<int>, Mr: multiset<int>,
                    A: multiset<int>, R: multiset<int>, B: multiset<int>, I: multiset<int>, id: int)
    requires M1 + A == M0 + R && R + multiset{id} == A
    requires Mr + B == M1 + I && I == B + multiset{id}
    ensures Mr == M0
  {
    forall x ensures Mr[x] == M0[x] {
      assert (M1 + A)[x] == (M0 + R)[x];
      assert (R + multiset{id})[x] == A[x];
      assert (Mr + B)[x] == (M1 + I)[x];
      assert I[x] == (B + multiset{id})[x];
    }
  }

  /** For a dragged id that occurs once in its source bucket, the move only
      relocates it: the board holds the same ids, as often as before, and
      the same number of tasks. */
  lemma MovePreservesIds(g: Grouped, d: DropResult)
    requires AtMostOnce(Bucket(g, d.source.droppableId), d.draggableId)
    ensures multiset(Ids(Flatten(ApplyMove(g, d)))) == multiset(Ids(Flatten(g)))
    ensures |Flatten(ApplyMove(g, d))| == |Flatten(g)|
  {
    var r := ApplyMove(g, d);
    if d.destination.Some? && FindById(Bucket(g, d.source.droppableId), d.draggableId).Some? {
      MovedIds(g, d);
    }
    assert |multiset(Ids(Flatten(r)))| == |Flatten(r)|;
    assert |multiset(Ids(Flatten(g)))| == |Flatten(g)|;
  }

  lemma MovedIds(g: Grouped, d: DropResult)
    requires AtMostOnce(Bucket(g, d.source.droppableId), d.draggableId)
    requires d.destination.Some? && FindById(Bucket(g, d.source.droppableId), d.draggableId).Some?
    ensures multiset(Ids(Flatten(ApplyMove(g, d)))) == multiset(Ids(Flatten(g)))
  {
    var src, dst, id := d.source.droppableId, d.destination.value.droppableId, d.draggableId;
    var t := FindById(Bucket(g, src), id).value;
    var removed := RemoveId(Bucket(g, src), id);
    var g1 := WithBucket(g, src, removed);
    var inserted := InsertAt(Bucket(g1, dst), d.destination.value.index, t.(status := dst));
    assert ApplyMove(g, d) == WithBucket(g1, dst, inserted);
    assert IndexOfId(Bucket(g, src), id) >= 0;
    RemoveUniqueIds(Bucket(g, src), id);
    ReplaceBucketIds(g, src, removed);
    ReplaceBucketIds(g1, dst, inserted);
    RelocatedId(multiset(Ids(Flatten(g))), multiset(Ids(Flatten(g1))), multiset(Ids(Flatten(ApplyMove(g, d)))),
      multiset(Ids(Bucket(g, src))), multiset(Ids(removed)), multiset(Ids(Bucket(g1, dst))), multiset(Ids(inserted)), id);
  }

  /** The move keeps every task in the bucket of its status. */
  lemma MovePreservesWellFormed(g: Grouped, d: DropResult)
    requires WellFormed(g)
    ensures WellFormed(ApplyMove(g, d))
  {
    if d.destination.Some? && FindById(Bucket(g, d.source.droppableId), d.draggableId).Some? {
      var src, dst := d.source.droppableId, d.destination.value.droppableId;
      var before := BeforeInsert(g, d);
      var r := ApplyMove(g, d);
      MoveEffect(g, d);
      var b := Bucket(r, dst);
      var k := SpliceStart(d.destination.value.index, |before|);
      assert forall v :: v in before ==> v.status == dst by {
        assert forall v :: v in before ==> v in Bucket(g, dst);
      }
      assert forall v :: v in b ==> v.status == dst by {
        assert b == b[..k] + [b[k]] + b[k + 1..];
        assert forall v :: v in b[..k] + b[k + 1..] ==> v in before;
      }
      forall c: Column, u | u in Bucket(r, c) ensures u.status == c {
        if c == src && c != dst {
          assert forall v :: v in Bucket(r, src) ==> v in Bucket(g, src);
        }
      }
    }
  }

  /** Dropping a card back on its own slot is already a no-op for the reducer:
      on a well-formed board where the dragged task sits at the source index
      and its id is unique in that bucket, removing it and splicing it back at
      the same index restores the buckets exactly. */
  lemma MoveToSameSlotIsIdentity(g: Grouped, d: DropResult)
    requires WellFormed(g)
    requires d.destination == Some(d.source)
    requires 0 <= d.source.index < |Bucket(g, d.source.droppableId)|
    requires Bucket(g, d.source.droppableId)[d.source.index].id == d.draggableId
    requires AtMostOnce(Bucket(g, d.source.droppableId), d.draggableId)
    ensures ApplyMove(g, d) == g
  {
    var c, i, id := d.source.droppableId, d.source.index, d.draggableId;
    var s := Bucket(g, c);
    assert IndexOfId(s, id) == i;
    RemoveUnique(s, id, i);
    var t := s[i];
    assert t in s;
    assert t.(status := c) == t;
    var rest := s[..i] + s[i + 1..];
    assert InsertAt(rest, i, t) == s by {
      assert SpliceStart(i, |rest|) == i;
      assert rest[..i] == s[..i];
      assert rest[i..] == s[i + 1..];
      assert s == s[..i] + [t] + s[i + 1..];
    }
  }

  function Card(id: int, status: Status): Task
  {
    Task(id, "Task " + if id == 1 then "1" else "2", "", Medium, status, None, None, "Board 1")
  }

  /** The reducer test: task 1 dragged from Backlog index 0 to InProgress index 1
      leaves Backlog empty and InProgress as [task 2, task 1] with task 1's
      status now InProgress. */
  lemma MoveScenario()
    ensures
      var g := Grouped([Card(1, Backlog)], [Card(2, InProgress)], []);
      var r := ApplyMove(g, DropResult(1, Location(Backlog, 0), Some(Location(InProgress, 1))));
      && r.backlog == []
      && |r.inProgress| == 2
      && r.inProgress[1].id == 1
      && r.inProgress[1].status == InProgress
  {
    var s := [Card(1, Backlog)];
    assert FindById(s, 1) == Some(Card(1, Backlog));
    RemoveIdCons(s, 1);
    assert RemoveId(s, 1) == [];
  }
}

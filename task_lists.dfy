/** The array operations the reducers apply to task lists: `filter`, `find`,
    `findIndex`, `splice(i, 0, x)` and indexed assignment, as functions on
    sequences with what each one guarantees. */
module TaskLists {
  import opened Domain

  /** `Array.prototype.filter`: the elements satisfying `p`, in their order. */
  function Keep(s: seq<Task>, p: Task -> bool): (r: seq<Task>)
    ensures |r| <= |s|
    ensures forall x :: x in r <==> x in s && p(x)
  {
    if s == [] then []
    else (if p(s[0]) then [s[0]] else []) + Keep(s[1..], p)
  }

  /** `r` is `s` with some elements left out and the rest in the same order. */
  ghost predicate IsSubsequence<T>(r: seq<T>, s: seq<T>)
    decreases |s|
  {
    if r == [] then true
    else if s == [] then false
    else (r[0] == s[0] && IsSubsequence(r[1..], s[1..])) || IsSubsequence(r, s[1..])
  }

  lemma {:induction false} KeepIsSubsequence(s: seq<Task>, p: Task -> bool)
    ensures IsSubsequence(Keep(s, p), s)
  {
    if s != [] {
      KeepIsSubsequence(s[1..], p);
      var r := Keep(s, p);
      if p(s[0]) {
        assert r[0] == s[0] && r[1..] == Keep(s[1..], p);
      } else {
        assert r == Keep(s[1..], p);
      }
    }
  }

  lemma {:induction false} KeepAppend(a: seq<Task>, b: seq<Task>, p: Task -> bool)
    ensures Keep(a + b, p) == Keep(a, p) + Keep(b, p)
  {
    if a == [] {
      assert a + b == b;
    } else {
      assert (a + b)[0] == a[0] && (a + b)[1..] == a[1..] + b;
      KeepAppend(a[1..], b, p);
    }
  }

  /** How many tasks of `s` carry `id`. */
  function CountId(s: seq<Task>, id: int): nat
  {
    multiset(Ids(s))[id]
  }

  lemma {:induction false} IdsAppend(a: seq<Task>, b: seq<Task>)
    ensures Ids(a + b) == Ids(a) + Ids(b)
  {
    if a == [] {
      assert a + b == b;
    } else {
      assert (a + b)[1..] == a[1..] + b;
      IdsAppend(a[1..], b);
    }
  }

  lemma {:induction false} IdsAt(s: seq<Task>, i: int)
    requires 0 <= i < |s|
    ensures Ids(s)[i] == s[i].id
  {
    if i > 0 {
      IdsAt(s[1..], i - 1);
    }
  }

  lemma CountIdAppend(a: seq<Task>, b: seq<Task>, id: int)
    ensures CountId(a + b, id) == CountId(a, id) + CountId(b, id)
  {
    IdsAppend(a, b);
  }

  lemma {:induction false} RemoveIdAppend(a: seq<Task>, b: seq<Task>, id: int)
    ensures RemoveId(a + b, id) == RemoveId(a, id) + RemoveId(b, id)
  {
    KeepAppend(a, b, (t: Task) => t.id != id);
  }

  /** `findIndex(t => t.id === id)`: the first position carrying `id`, or -1. */
  function IndexOfId(s: seq<Task>, id: int): (r: int)
    ensures -1 <= r < |s|
    ensures r >= 0 ==> s[r].id == id && forall j :: 0 <= j < r ==> s[j].id != id
    ensures r == -1 <==> forall j :: 0 <= j < |s| ==> s[j].id != id
  {
    if s == [] then -1
    else if s[0].id == id then 0
    else
      var k := IndexOfId(s[1..], id);
      if k == -1 then -1 else k + 1
  }

  /** `find(t => t.id === id)`: the first task carrying `id`, if any. */
  function FindById(s: seq<Task>, id: int): (r: Option<Task>)
    ensures r.None? <==> forall t :: t in s ==> t.id != id
    ensures r.Some? ==> r.value in s && r.value.id == id
    ensures r.Some? ==> exists i :: 0 <= i < |s| && s[i] == r.value && forall j :: 0 <= j < i ==> s[j].id != id
  {
    var i := IndexOfId(s, id);
    if i == -1 then None else Some(s[i])
  }

  /** `filter(t => t.id !== id)`. */
  function RemoveId(s: seq<Task>, id: int): (r: seq<Task>)
    ensures forall t :: t in r <==> t in s && t.id != id
  {
    Keep(s, (t: Task) => t.id != id)
  }

  lemma RemoveIdCons(s: seq<Task>, id: int)
    requires s != []
    ensures RemoveId(s, id) == (if s[0].id == id then [] else [s[0]]) + RemoveId(s[1..], id)
  {
  }

  lemma NoIdCountsZero(s: seq<Task>, id: int)
    requires forall t :: t in s ==> t.id != id
    ensures CountId(s, id) == 0
  {
    assert id !in Ids(s) by {
      forall i | 0 <= i < |s| ensures Ids(s)[i] != id {
        IdsAt(s, i);
        assert s[i] in s;
      }
    }
  }

  /** When `id` occurs exactly once, at position i, removing it is cutting out s[i]. */
  lemma RemoveUnique(s: seq<Task>, id: int, i: int)
    requires 0 <= i < |s| && s[i].id == id
    requires forall j :: 0 <= j < |s| && j != i ==> s[j].id != id
    ensures RemoveId(s, id) == s[..i] + s[i + 1..]
  {
    var a, b := s[..i], s[i + 1..];
    var m := [s[i]] + b;
    assert s == a + m;
    forall j | 0 <= j < |a| ensures a[j].id != id {
      assert a[j] == s[j];
    }
    forall j | 0 <= j < |b| ensures b[j].id != id {
      assert b[j] == s[i + 1 + j];
    }
    NoIdKept(a, id);
    NoIdKept(b, id);
    assert RemoveId(m, id) == b by {
      RemoveIdAppend([s[i]], b, id);
      DropOwnId(s[i], id);
      assert [] + b == b;
    }
    RemoveIdAppend(a, m, id);
  }

  lemma DropOwnId(t: Task, id: int)
    requires t.id == id
    ensures RemoveId([t], id) == []
  {
    RemoveIdCons([t], id);
    assert [t][1..] == [];
  }

  lemma {:induction false} NoIdKept(s: seq<Task>, id: int)
    requires forall j :: 0 <= j < |s| ==> s[j].id != id
    ensures RemoveId(s, id) == s
  {
    if s != [] {
      RemoveIdCons(s, id);
      NoIdKept(s[1..], id);
      assert s == [s[0]] + s[1..];
    }
  }

  /** No two positions of `s` carry `id`. */
  ghost predicate AtMostOnce(s: seq<Task>, id: int)
  {
    forall i, j :: 0 <= i < |s| && 0 <= j < |s| && s[i].id == id && s[j].id == id ==> i == j
  }

  /** Removing an id that occurs once takes exactly that one id out. */
  lemma RemoveUniqueIds(s: seq<Task>, id: int)
    requires AtMostOnce(s, id) && IndexOfId(s, id) >= 0
    ensures multiset(Ids(RemoveId(s, id))) + multiset{id} == multiset(Ids(s))
    ensures |RemoveId(s, id)| == |s| - 1
  {
    var i := IndexOfId(s, id);
    assert forall j :: 0 <= j < |s| && j != i ==> s[j].id != id;
    RemoveUnique(s, id, i);
    var a, b := s[..i], s[i + 1..];
    assert s == (a + [s[i]]) + b;
    IdsAppend(a + [s[i]], b);
    IdsAppend(a, [s[i]]);
    IdsAppend(a, b);
    assert Ids([s[i]]) == [id];
    assert Ids(s) == Ids(a) + [id] + Ids(b);
    assert Ids(RemoveId(s, id)) == Ids(a) + Ids(b);
    assert multiset(Ids(s)) == multiset(Ids(a)) + multiset{id} + multiset(Ids(b));
    assert multiset(Ids(RemoveId(s, id))) == multiset(Ids(a)) + multiset(Ids(b));
    assert |RemoveId(s, id)| == |a| + |b|;
  }

  /** Where `splice(index, 0, x)` inserts into an array of length `len`:
      a negative index counts from the end, and both ends clamp. */
  function SpliceStart(index: int, len: nat): (k: nat)
    ensures k <= len
    ensures 0 <= index <= len ==> k == index
    ensures index > len ==> k == len
    ensures index + len < 0 ==> k == 0
  {
    if index < 0 then (if len + index < 0 then 0 else len + index)
    else if index > len then len
    else index
  }

  /** `splice(index, 0, t)`: `t` inserted before position SpliceStart(index, |s|). */
  function InsertAt(s: seq<Task>, index: int, t: Task): (r: seq<Task>)
    ensures |r| == |s| + 1
    ensures r[SpliceStart(index, |s|)] == t
    ensures r[..SpliceStart(index, |s|)] == s[..SpliceStart(index, |s|)]
    ensures r[SpliceStart(index, |s|) + 1..] == s[SpliceStart(index, |s|)..]
    ensures multiset(Ids(r)) == multiset(Ids(s)) + multiset{t.id}
  {
    var k := SpliceStart(index, |s|);
    var r := s[..k] + [t] + s[k..];
    assert s == s[..k] + s[k..];
    IdsAppend(s[..k], s[k..]);
    IdsAppend(s[..k] + [t], s[k..]);
    IdsAppend(s[..k], [t]);
    r
  }

  /** `findIndex` by the task's id, then `tasks[i] = t` when found. */
  function ReplaceFirst(s: seq<Task>, t: Task): (r: seq<Task>)
    ensures |r| == |s|
    ensures (forall u :: u in s ==> u.id != t.id) ==> r == s
    ensures IndexOfId(s, t.id) >= 0 ==> r[IndexOfId(s, t.id)] == t
    ensures forall j :: 0 <= j < |s| && j != IndexOfId(s, t.id) ==> r[j] == s[j]
  {
    var i := IndexOfId(s, t.id);
    if i == -1 then s else s[i := t]
  }
}

/**
 * The table operations the three stores share, on the list of records they
 * hold: `findIndex` and `find` by `id`, the upsert, the merging update and the
 * filtering remove, each as a function of the old list, with the lemmas that
 * relate them.
 */
module KeyedList {
  import opened Wrappers
  import opened Records

  /** The ids of the list, position by position. */
  function Ids(s: seq<Record>): (ids: seq<Id>)
    ensures |ids| == |s|
    ensures forall i :: 0 <= i < |s| ==> ids[i] == s[i].id
  {
    seq(|s|, i requires 0 <= i < |s| => s[i].id)
  }

  /** Some element of the list has this id. */
  predicate HasId(s: seq<Record>, id: Id) {
    exists i :: 0 <= i < |s| && s[i].id == id
  }

  /** No two positions of the list hold the same id. */
  predicate DistinctIds(s: seq<Record>) {
    forall i, j :: 0 <= i < j < |s| ==> s[i].id != s[j].id
  }

  /** `items.findIndex((item) => item.id === id)`: the first position holding the id, or -1. */
  function FirstIndexOf(s: seq<Record>, id: Id): (k: int)
    ensures -1 <= k < |s|
    ensures k == -1 <==> !HasId(s, id)
    ensures k >= 0 ==> s[k].id == id && forall j :: 0 <= j < k ==> s[j].id != id
  {
    if |s| == 0 then -1
    else if s[0].id == id then 0
    else
      var k := FirstIndexOf(s[1..], id);
      assert forall j :: 1 <= j < |s| ==> s[j] == s[1..][j - 1];
      if k == -1 then -1 else k + 1
  }

  /** `items.find((item) => item.id === id)`: the first element holding the id, if any. */
  function Find(s: seq<Record>, id: Id): (r: Option<Record>)
    ensures r.None? <==> !HasId(s, id)
    ensures r.Some? ==> r.value.id == id && r.value in s
  {
    if |s| == 0 then None
    else if s[0].id == id then Some(s[0])
    else
      assert forall j :: 1 <= j < |s| ==> s[j] == s[1..][j - 1];
      Find(s[1..], id)
  }

  /** `find` and `findIndex` agree: `find` returns the element at the first matching position. */
  lemma {:induction false} FindIsAtFirstIndex(s: seq<Record>, id: Id)
    ensures var k := FirstIndexOf(s, id);
            Find(s, id) == if k == -1 then None else Some(s[k])
  {
    if |s| > 0 && s[0].id != id {
      FindIsAtFirstIndex(s[1..], id);
    }
  }

  /**
   * The upsert: the record replaces the first element with its id,
   * or is appended when there is none.
   */
  function Upserted(s: seq<Record>, next: Record): (r: seq<Record>)
    ensures !HasId(s, next.id) ==> r == s + [next]
    ensures HasId(s, next.id) ==>
      |r| == |s| && r[FirstIndexOf(s, next.id)] == next &&
      forall j :: 0 <= j < |s| && j != FirstIndexOf(s, next.id) ==> r[j] == s[j]
  {
    var k := FirstIndexOf(s, next.id);
    if k == -1 then s + [next] else s[k := next]
  }

  /** An upsert keeps every id in place and adds the new id at the end when it was absent. */
  lemma UpsertedIds(s: seq<Record>, next: Record)
    ensures Ids(Upserted(s, next)) == if HasId(s, next.id) then Ids(s) else Ids(s) + [next.id]
  {
  }

  /** After an upsert, looking the record's id up yields exactly that record. */
  lemma FindAfterUpsert(s: seq<Record>, next: Record)
    ensures Find(Upserted(s, next), next.id) == Some(next)
  {
    var r := Upserted(s, next);
    FindIsAtFirstIndex(r, next.id);
    var k := FirstIndexOf(s, next.id);
    if k == -1 {
      assert forall j :: 0 <= j < |s| ==> r[j] == s[j] && s[j].id != next.id;
      assert r[|s|] == next;
      assert FirstIndexOf(r, next.id) == |s|;
    } else {
      assert FirstIndexOf(r, next.id) == k;
    }
  }

  /** An upsert does not change what any other id looks up to. */
  lemma FindOtherAfterUpsert(s: seq<Record>, next: Record, id: Id)
    requires id != next.id
    ensures Find(Upserted(s, next), id) == Find(s, id)
  {
    var r := Upserted(s, next);
    FindIsAtFirstIndex(r, id);
    FindIsAtFirstIndex(s, id);
    var k := FirstIndexOf(s, next.id);
    if k == -1 {
      assert forall j :: 0 <= j < |s| ==> r[j] == s[j];
      assert !HasId(s, id) ==> !HasId(r, id);
      assert FirstIndexOf(r, id) == FirstIndexOf(s, id);
    } else {
      assert forall j :: 0 <= j < |s| ==> (r[j].id == id <==> s[j].id == id);
      assert forall j :: 0 <= j < |s| && j != k ==> r[j] == s[j];
      assert HasId(r, id) <==> HasId(s, id);
      assert FirstIndexOf(r, id) == FirstIndexOf(s, id);
    }
  }

  /** Upserting the same record twice is the same as upserting it once. */
  lemma UpsertIdempotent(s: seq<Record>, next: Record)
    ensures Upserted(Upserted(s, next), next) == Upserted(s, next)
  {
    var r := Upserted(s, next);
    FindAfterUpsert(s, next);
    FindIsAtFirstIndex(r, next.id);
    var k := FirstIndexOf(r, next.id);
    assert r[k] == next;
    assert r[k := next] == r;
  }

  /** Distinct ids before an upsert stay distinct after it. */
  lemma DistinctAfterUpsert(s: seq<Record>, next: Record)
    requires DistinctIds(s)
    ensures DistinctIds(Upserted(s, next))
  {
  }

  /** Appending keeps the ids distinct exactly when the new id is not already present. */
  lemma DistinctAfterAppend(s: seq<Record>, x: Record)
    ensures DistinctIds(s + [x]) <==> DistinctIds(s) && !HasId(s, x.id)
  {
    var r := s + [x];
    assert forall j :: 0 <= j < |s| ==> r[j] == s[j];
    if HasId(s, x.id) {
      var i :| 0 <= i < |s| && s[i].id == x.id;
      assert r[i].id == r[|s|].id;
    }
  }

  /** A bulk append keeps ids distinct exactly when the payload's ids are distinct and none is already present. */
  lemma DistinctAfterAppendAll(s: seq<Record>, p: seq<Record>)
    ensures DistinctIds(s + p) <==>
      DistinctIds(s) && DistinctIds(p) && forall x :: x in p ==> !HasId(s, x.id)
  {
    var r := s + p;
    assert forall j :: 0 <= j < |s| ==> r[j] == s[j];
    assert forall j :: 0 <= j < |p| ==> r[|s| + j] == p[j];
    forall x | x in p && HasId(s, x.id)
      ensures !DistinctIds(r)
    {
      var m :| 0 <= m < |p| && p[m] == x;
      var i :| 0 <= i < |s| && s[i].id == x.id;
      assert r[i].id == r[|s| + m].id;
    }
    assert forall i, j :: 0 <= i < j < |p| ==> p[i].id == r[|s| + i].id && p[j].id == r[|s| + j].id;
    if DistinctIds(s) && DistinctIds(p) && forall x :: x in p ==> !HasId(s, x.id) {
      forall i, j | 0 <= i < j < |r|
        ensures r[i].id != r[j].id
      {
        if j < |s| {
          assert r[i] == s[i] && r[j] == s[j];
        } else if i >= |s| {
          assert r[i] == p[i - |s|] && r[j] == p[j - |s|];
        } else {
          assert r[j] == p[j - |s|] && r[j] in p;
          assert r[i] == s[i];
        }
      }
    }
  }

  /** Appending a record whose id is already stored produces a duplicate id. */
  lemma AppendMayDuplicate(s: seq<Record>, x: Record)
    requires HasId(s, x.id)
    ensures !DistinctIds(s + [x])
  {
    DistinctAfterAppend(s, x);
  }

  /**
   * The merging update: the first element with the id takes the changes merged
   * into it, keeping its id; an unknown id leaves the list as it is.
   */
  function Updated(s: seq<Record>, id: Id, changes: Changes): (r: seq<Record>)
    ensures |r| == |s|
    ensures !HasId(s, id) ==> r == s
    ensures HasId(s, id) ==>
      r[FirstIndexOf(s, id)] == Merge(s[FirstIndexOf(s, id)], changes) &&
      forall j :: 0 <= j < |s| && j != FirstIndexOf(s, id) ==> r[j] == s[j]
  {
    var k := FirstIndexOf(s, id);
    if k == -1 then s else s[k := Merge(s[k], changes)]
  }

  /** An update never changes any id in the list, whatever id the changes carry. */
  lemma UpdatedIds(s: seq<Record>, id: Id, changes: Changes)
    ensures Ids(Updated(s, id, changes)) == Ids(s)
  {
  }

  /** An id carried in the changes has no effect on the update. */
  lemma UpdateIgnoresChangedId(s: seq<Record>, id: Id, changes: Changes, other: Value)
    ensures Updated(s, id, changes["id" := other]) == Updated(s, id, changes)
  {
    if HasId(s, id) {
      MergeIgnoresChangedId(s[FirstIndexOf(s, id)], changes, other);
    }
  }

  /** Distinct ids before an update stay distinct after it. */
  lemma DistinctAfterUpdate(s: seq<Record>, id: Id, changes: Changes)
    requires DistinctIds(s)
    ensures DistinctIds(Updated(s, id, changes))
  {
  }

  /** After an update, the id looks up to the merge of what it looked up to before. */
  lemma FindAfterUpdate(s: seq<Record>, id: Id, changes: Changes)
    ensures Find(Updated(s, id, changes), id) ==
            match Find(s, id)
            case None => None
            case Some(x) => Some(Merge(x, changes))
  {
    var r := Updated(s, id, changes);
    FindIsAtFirstIndex(s, id);
    FindIsAtFirstIndex(r, id);
    if HasId(s, id) {
      var k := FirstIndexOf(s, id);
      assert r[k].id == id;
      assert forall j :: 0 <= j < k ==> r[j] == s[j];
      assert FirstIndexOf(r, id) == k;
    }
  }

  /** `items.filter((item) => item.id !== id)`. */
  function Removed(s: seq<Record>, id: Id): (r: seq<Record>)
    ensures |r| <= |s|
    ensures !HasId(r, id)
    ensures forall x :: multiset(r)[x] == if x.id == id then 0 else multiset(s)[x]
  {
    if |s| == 0 then []
    else
      assert s == [s[0]] + s[1..];
      var rest := Removed(s[1..], id);
      if s[0].id == id then rest else [s[0]] + rest
  }

  /** Removing distributes over concatenation, so the survivors keep their relative order. */
  lemma {:induction false} RemovedConcat(a: seq<Record>, b: seq<Record>, id: Id)
    ensures Removed(a + b, id) == Removed(a, id) + Removed(b, id)
  {
    if |a| > 0 {
      assert (a + b)[1..] == a[1..] + b;
      RemovedConcat(a[1..], b, id);
    } else {
      assert a + b == b;
    }
  }

  /** A one-element list survives the removal exactly when its id differs. */
  lemma RemovedSingle(x: Record, id: Id)
    ensures Removed([x], id) == if x.id == id then [] else [x]
  {
  }

  /** Removing an id that is not present leaves the list unchanged. */
  lemma {:induction false} RemovedAbsent(s: seq<Record>, id: Id)
    requires !HasId(s, id)
    ensures Removed(s, id) == s
  {
    if |s| > 0 {
      assert forall j :: 1 <= j < |s| ==> s[j] == s[1..][j - 1];
      RemovedAbsent(s[1..], id);
      assert s == [s[0]] + s[1..];
    }
  }

  /** Every survivor of a removal was in the list. */
  lemma RemovedSubset(s: seq<Record>, id: Id)
    ensures forall x :: x in Removed(s, id) ==> x in s
  {
  }

  /** A record whose id is absent from a distinct list can be put in front of it. */
  lemma DistinctCons(x: Record, t: seq<Record>)
    requires DistinctIds(t) && !HasId(t, x.id)
    ensures DistinctIds([x] + t)
  {
  }

  /** Ids that were distinct before a removal stay distinct after it. */
  lemma {:induction false} DistinctAfterRemove(s: seq<Record>, id: Id)
    requires DistinctIds(s)
    ensures DistinctIds(Removed(s, id))
  {
    if |s| > 0 {
      var tail := s[1..];
      assert forall j :: 0 <= j < |tail| ==> tail[j] == s[j + 1];
      DistinctAfterRemove(tail, id);
      if s[0].id != id {
        var rest := Removed(tail, id);
        RemovedSubset(tail, id);
        forall j | 0 <= j < |rest|
          ensures rest[j].id != s[0].id
        {
          var m :| 0 <= m < |tail| && tail[m] == rest[j];
          assert tail[m] == s[m + 1];
        }
        DistinctCons(s[0], rest);
      }
    }
  }

  /** After a removal the id looks up to nothing, and every other id to what it did before. */
  lemma {:induction false} FindAfterRemove(s: seq<Record>, id: Id, other: Id)
    ensures Find(Removed(s, id), id) == None
    ensures other != id ==> Find(Removed(s, id), other) == Find(s, other)
  {
    if |s| > 0 {
      FindAfterRemove(s[1..], id, other);
    }
  }
}

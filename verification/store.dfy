/** The generic record collection behind every `addX` / `updateX` / `deleteX`
    triple of the application context. A record is an id plus the entity's
    other fields (`Omit<E, 'id'>`); a collection is an ordered sequence of
    records in insertion order. */
module Store {
  import opened Optional
  import opened Seqs

  datatype Record<F> = Record(id: int, fields: F)

  /** A `Partial<E>`: an optional replacement id and a patch of the other
      fields, merged onto a record by an entity-specific `merge`. */
  datatype Patch<P> = Patch(id: Option<int>, fields: P)

  predicate HasId<F>(c: seq<Record<F>>, id: int)
  {
    exists i :: 0 <= i < |c| && c[i].id == id
  }

  /** No two records of the collection share an id. */
  predicate UniqueIds<F>(c: seq<Record<F>>)
  {
    forall i, j :: 0 <= i < j < |c| ==> c[i].id != c[j].id
  }

  /** Every id is at most the collection's length: the condition under which
      a length-based id is fresh. */
  predicate IdsWithinLength<F>(c: seq<Record<F>>)
  {
    forall i :: 0 <= i < |c| ==> c[i].id <= |c|
  }

  /** The ids are exactly 1, 2, ..., |c| in order, as in a collection built
      only by `Add` from empty. */
  predicate DenseIds<F>(c: seq<Record<F>>)
  {
    forall i :: 0 <= i < |c| ==> c[i].id == i + 1
  }

  /** How many records carry `id`. */
  function CountId<F>(c: seq<Record<F>>, id: int): nat
  {
    Count(c, (x: Record<F>) => x.id == id)
  }

  /** Appends a record built from the given fields. Its id is one more than
      the number of records, whatever ids are in use. */
  function Add<F>(c: seq<Record<F>>, f: F): (r: seq<Record<F>>)
    ensures |r| == |c| + 1
    ensures r[..|c|] == c
    ensures r[|c|].id == |c| + 1 && r[|c|].fields == f
    ensures forall id :: HasId(r, id) <==> HasId(c, id) || id == |c| + 1
  {
    var r := c + [Record(|c| + 1, f)];
    assert forall i :: 0 <= i < |c| ==> r[i] == c[i];
    r
  }

  /** One record with a patch spread over it: supplied fields win, absent
      ones keep the record's values. */
  function ApplyPatch<F, P>(rec: Record<F>, p: Patch<P>, merge: (F, P) -> F): Record<F>
  {
    Record(ValueOr(p.id, rec.id), merge(rec.fields, p.fields))
  }

  /** Patches every record whose id matches, in place; the others, and the
      order, stay as they were. */
  function Update<F, P>(c: seq<Record<F>>, id: int, p: Patch<P>, merge: (F, P) -> F): (r: seq<Record<F>>)
    ensures |r| == |c|
    ensures forall i :: 0 <= i < |c| && c[i].id != id ==> r[i] == c[i]
    ensures forall i :: 0 <= i < |c| && c[i].id == id ==>
              r[i].fields == merge(c[i].fields, p.fields) && r[i].id == ValueOr(p.id, id)
  {
    if |c| == 0 then []
    else [if c[0].id == id then ApplyPatch(c[0], p, merge) else c[0]] + Update(c[1..], id, p, merge)
  }

  /** Removes every record whose id matches and keeps the others in order. */
  function Delete<F>(c: seq<Record<F>>, id: int): (r: seq<Record<F>>)
    ensures forall i :: 0 <= i < |r| ==> r[i] in c && r[i].id != id
    ensures forall i :: 0 <= i < |c| && c[i].id != id ==> c[i] in r
    ensures !HasId(r, id)
    ensures |r| == |c| - CountId(c, id)
  {
    var r := Filter(c, (x: Record<F>) => x.id != id);
    assert |r| == |c| - CountId(c, id) by {
      FilterPartition(c, (x: Record<F>) => x.id != id, (x: Record<F>) => x.id == id);
      FilterLength(c, (x: Record<F>) => x.id == id);
    }
    r
  }

  /** Update on an id that no record has is a silent no-op. */
  lemma UpdateUnknownId<F, P>(c: seq<Record<F>>, id: int, p: Patch<P>, merge: (F, P) -> F)
    requires !HasId(c, id)
    ensures Update(c, id, p, merge) == c
  {
  }

  /** Update with a patch that supplies nothing leaves the collection as it
      was. */
  lemma UpdateEmptyPatch<F, P>(c: seq<Record<F>>, id: int, p: Patch<P>, merge: (F, P) -> F)
    requires p.id == None
    requires forall f :: merge(f, p.fields) == f
    ensures Update(c, id, p, merge) == c
  {
  }

  /** An update that does not supply an id keeps every id where it was, so
      it keeps them unique. */
  lemma UpdateKeepsIds<F, P>(c: seq<Record<F>>, id: int, p: Patch<P>, merge: (F, P) -> F)
    requires p.id == None
    ensures forall i :: 0 <= i < |c| ==> Update(c, id, p, merge)[i].id == c[i].id
    ensures UniqueIds(c) ==> UniqueIds(Update(c, id, p, merge))
  {
  }

  /** Delete of an id that no record has is a silent no-op. */
  lemma DeleteUnknownId<F>(c: seq<Record<F>>, id: int)
    requires !HasId(c, id)
    ensures Delete(c, id) == c
  {
    FilterAll(c, (x: Record<F>) => x.id != id);
  }

  /** Deleting the same id twice is deleting it once. */
  lemma DeleteIdempotent<F>(c: seq<Record<F>>, id: int)
    ensures Delete(Delete(c, id), id) == Delete(c, id)
  {
    DeleteUnknownId(Delete(c, id), id);
  }

  /** The records that survive a delete keep their relative order: deleting
      from a concatenation deletes from each part in place. */
  lemma DeleteKeepsOrder<F>(a: seq<Record<F>>, b: seq<Record<F>>, id: int)
    ensures Delete(a + b, id) == Delete(a, id) + Delete(b, id)
  {
    FilterAppend(a, b, (x: Record<F>) => x.id != id);
  }

  /** Removing records cannot create a shared id. */
  lemma {:induction false} DeleteKeepsUniqueIds<F>(c: seq<Record<F>>, id: int)
    requires UniqueIds(c)
    ensures UniqueIds(Delete(c, id))
  {
    FilterKeepsUniqueIds(c, (x: Record<F>) => x.id != id);
  }

  lemma {:induction false} FilterKeepsUniqueIds<F>(c: seq<Record<F>>, keep: Record<F> -> bool)
    requires UniqueIds(c)
    ensures UniqueIds(Filter(c, keep))
  {
    if |c| > 0 {
      var rest := c[1..];
      assert UniqueIds(rest) by {
        forall i, j | 0 <= i < j < |rest|
          ensures rest[i].id != rest[j].id
        {
          assert rest[i] == c[i + 1] && rest[j] == c[j + 1];
        }
      }
      FilterKeepsUniqueIds(rest, keep);
      var tail := Filter(rest, keep);
      assert forall k :: 0 <= k < |tail| ==> tail[k].id != c[0].id by {
        forall k | 0 <= k < |tail|
          ensures tail[k].id != c[0].id
        {
          var j :| 0 <= j < |rest| && rest[j] == tail[k];
          assert c[j + 1] == tail[k];
        }
      }
    }
  }

  /** Freshness holds conditionally: while every id is at most the length,
      the length-based id is not in use, and adding keeps ids unique and
      within the new length. */
  lemma AddFreshWhenIdsWithinLength<F>(c: seq<Record<F>>, f: F)
    requires IdsWithinLength(c)
    ensures !HasId(c, |c| + 1)
    ensures IdsWithinLength(Add(c, f))
    ensures UniqueIds(c) ==> UniqueIds(Add(c, f))
  {
  }

  /** A collection built by `Add` alone keeps the ids 1..n, so ids stay
      unique as long as nothing is deleted. */
  lemma AddKeepsDenseIds<F>(c: seq<Record<F>>, f: F)
    requires DenseIds(c)
    ensures DenseIds(Add(c, f))
    ensures UniqueIds(Add(c, f))
  {
  }

  /** Two adds of identical fields still create two records with different
      ids: `Add` is not idempotent. */
  lemma AddTwiceDistinctIds<F>(c: seq<Record<F>>, f: F)
    ensures var r := Add(Add(c, f), f);
      |r| == |c| + 2 && r[|c|].fields == r[|c| + 1].fields && r[|c|].id != r[|c| + 1].id
  {
  }

  /** Freshness fails in general: from ids [1, 2], deleting 1 and then
      adding gives a second record with id 2. */
  lemma DeleteThenAddDuplicatesId<F>(a: F, b: F, f: F)
    ensures var c := [Record(1, a), Record(2, b)];
      UniqueIds(c) && Add(Delete(c, 1), f) == [Record(2, b), Record(2, f)] && !UniqueIds(Add(Delete(c, 1), f))
  {
    var c := [Record(1, a), Record(2, b)];
    assert c[1..] == [Record(2, b)] && c[1..][1..] == [];
    assert CountId(c[1..][1..], 1) == 0;
    assert CountId(c[1..], 1) == 0;
    assert CountId(c, 1) == 1;
    var d := Delete(c, 1);
    assert |d| == 1 && d[0] in c && d[0].id != 1;
    assert d == [Record(2, b)];
    var r := Add(d, f);
    assert r[0].id == r[1].id;
  }
}

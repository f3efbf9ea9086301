/**
 * The client-side list cache (src/features/collection/hooks/useLegoSets.ts):
 * the three local updates applied to the cached list after a successful
 * store call, and the hook's add / update / delete operations, which apply
 * one of them on success and only ask for a refetch on failure.
 */
module LegoSetCache {
  import opened Wrappers
  import opened JsValue
  import opened LegoTypes
  import opened LegoSetService

  // ------------------------------------------------------ list transforms

  /** `[newLegoSet, ...sets]` */
  function Prepend(row: Row, sets: seq<Row>): (r: seq<Row>)
    ensures |r| == |sets| + 1
  {
    [row] + sets
  }

  /** `sets.map((set) => set.id === id ? updated : set)` */
  function ReplaceById(sets: seq<Row>, id: string, updated: Row): (r: seq<Row>)
    ensures |r| == |sets|
  {
    if sets == [] then []
    else [if sets[0].id == id then updated else sets[0]] + ReplaceById(sets[1..], id, updated)
  }

  /** `sets.filter((set) => set.id !== id)` */
  function RemoveById(sets: seq<Row>, id: string): (r: seq<Row>)
    ensures |r| <= |sets|
  {
    if sets == [] then []
    else if sets[0].id == id then RemoveById(sets[1..], id)
    else [sets[0]] + RemoveById(sets[1..], id)
  }

  // ------------------------------------------------------------- lemmas

  /** After an add the new row comes first and the old list follows, unchanged and in order. */
  lemma PrependShape(row: Row, sets: seq<Row>)
    ensures Prepend(row, sets)[0] == row
    ensures forall i :: 0 <= i < |sets| ==> Prepend(row, sets)[i + 1] == sets[i]
  {
  }

  /** Position by position: a matching row is replaced by the update, every other row stays where it was. */
  lemma {:induction false} ReplaceByIdAt(sets: seq<Row>, id: string, updated: Row, i: int)
    requires 0 <= i < |sets|
    ensures ReplaceById(sets, id, updated)[i] == if sets[i].id == id then updated else sets[i]
  {
    if i > 0 {
      ReplaceByIdAt(sets[1..], id, updated, i - 1);
    }
  }

  /** An update for an id the list does not hold changes nothing. */
  lemma {:induction false} ReplaceMissingId(sets: seq<Row>, id: string, updated: Row)
    requires forall i :: 0 <= i < |sets| ==> sets[i].id != id
    ensures ReplaceById(sets, id, updated) == sets
  {
    if sets != [] {
      ReplaceMissingId(sets[1..], id, updated);
    }
  }

  /** Nothing with the deleted id is left. */
  lemma {:induction false} RemovedIdGone(sets: seq<Row>, id: string)
    ensures forall i :: 0 <= i < |RemoveById(sets, id)| ==> RemoveById(sets, id)[i].id != id
  {
    if sets != [] {
      RemovedIdGone(sets[1..], id);
    }
  }

  /** Every other row is kept, as often as it occurred. */
  lemma {:induction false} RemoveKeepsOthers(sets: seq<Row>, id: string, row: Row)
    requires row.id != id
    ensures multiset(RemoveById(sets, id))[row] == multiset(sets)[row]
  {
    if sets != [] {
      RemoveKeepsOthers(sets[1..], id, row);
      assert sets == [sets[0]] + sets[1..];
    }
  }

  /** Filtering distributes over concatenation, so the kept rows keep their relative order. */
  lemma {:induction false} RemoveByIdAppend(a: seq<Row>, b: seq<Row>, id: string)
    ensures RemoveById(a + b, id) == RemoveById(a, id) + RemoveById(b, id)
  {
    if a != [] {
      assert (a + b)[0] == a[0] && (a + b)[1..] == a[1..] + b;
      RemoveByIdAppend(a[1..], b, id);
      if a[0].id != id {
        assert [a[0]] + RemoveById(a[1..], id) + RemoveById(b, id) == [a[0]] + (RemoveById(a[1..], id) + RemoveById(b, id));
      }
    } else {
      assert a + b == b;
    }
  }

  /** Deleting an id the list does not hold changes nothing. */
  lemma {:induction false} RemoveMissingId(sets: seq<Row>, id: string)
    requires forall i :: 0 <= i < |sets| ==> sets[i].id != id
    ensures RemoveById(sets, id) == sets
  {
    if sets != [] {
      RemoveMissingId(sets[1..], id);
    }
  }

  // ---------------------------------------------------------------- hook

  /**
   * The SWR entry "lego-sets" as the hook sees it: the cached list, which
   * is absent until the first fetch, and whether a revalidation (`mutate()`
   * without arguments) has been asked for.
   */
  class LegoSetsCache {
    var data: Option<seq<Row>>
    var refetchRequested: bool

    constructor()
      ensures data == None && !refetchRequested
    {
      data := None;
      refetchRequested := false;
    }

    /** A list fetch has settled with these rows. */
    method Loaded(rows: seq<Row>)
      modifies this
      ensures data == Some(rows) && !refetchRequested
    {
      data := Some(rows);
      refetchRequested := false;
    }

    /** `legoSets || []`: what the hook exposes. */
    function LegoSets(): (sets: seq<Row>)
      reads this
      ensures data.None? ==> sets == []
      ensures data.Some? ==> sets == data.value
    {
      data.GetOr([])
    }

    /**
     * addLegoSet: on success the created row is put in front of the cached
     * list (an absent list counting as empty); on failure the cache is left
     * as it is, a refetch is asked for and the error is handed back.
     */
    method AddLegoSet(raw: Json, insert: DbRow -> Reply<Row>) returns (r: Result<Row, ServiceError>)
      modifies this
      ensures r == CreateLegoSet(raw, insert)
      ensures r.Success? ==> data == Some(Prepend(r.value, old(LegoSets()))) && refetchRequested == old(refetchRequested)
      ensures r.Failure? ==> data == old(data) && refetchRequested
    {
      r := CreateLegoSet(raw, insert);
      if r.Success? {
        data := Some(Prepend(r.value, data.GetOr([])));
      } else {
        refetchRequested := true;
      }
    }

    /**
     * updateLegoSet: on success every cached row with the id is replaced by
     * the returned row (an absent list stays absent); on failure only a
     * refetch is asked for.
     */
    method UpdateLegoSet(id: string, partial: map<string, Json>, update: (string, DbRow) -> Reply<Row>)
      returns (r: Result<Row, ServiceError>)
      modifies this
      ensures UpdateRejected(partial) ==> r == Failure(Invalid(Validate(JObj(partial)).error))
      ensures !UpdateRejected(partial) ==> r == Wrap(update(id, UpdateRow(partial)), Update)
      ensures r.Success? ==> refetchRequested == old(refetchRequested)
      ensures r.Success? && old(data).Some? ==> data == Some(ReplaceById(old(data).value, id, r.value))
      ensures r.Success? && old(data).None? ==> data == None
      ensures r.Failure? ==> data == old(data) && refetchRequested
    {
      var sent;
      r, sent := LegoSetService.UpdateLegoSet(id, partial, update);
      if r.Success? {
        if data.Some? {
          data := Some(ReplaceById(data.value, id, r.value));
        }
      } else {
        refetchRequested := true;
      }
    }

    /**
     * deleteLegoSet: `error` is the store's reply to the delete. On success
     * every cached row with the id is dropped; on failure only a refetch is
     * asked for.
     */
    method DeleteLegoSet(id: string, error: Option<StoreError>) returns (r: Result<(), ServiceError>)
      modifies this
      ensures r == LegoSetService.DeleteLegoSet(error)
      ensures r.Success? ==> refetchRequested == old(refetchRequested)
      ensures r.Success? && old(data).Some? ==> data == Some(RemoveById(old(data).value, id))
      ensures r.Success? && old(data).None? ==> data == None
      ensures r.Failure? ==> data == old(data) && refetchRequested
    {
      r := LegoSetService.DeleteLegoSet(error);
      if r.Success? {
        if data.Some? {
          data := Some(RemoveById(data.value, id));
        }
      } else {
        refetchRequested := true;
      }
    }
  }
}

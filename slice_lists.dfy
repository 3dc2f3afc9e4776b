/**
 * The list updates the Redux slices (`frontend/src/store/slices/`) apply
 * to their record arrays: unwrapping a paged list, replacing a record by
 * id, removing records by id and clearing the record on display.
 */
module SliceLists {
  import opened Wrappers
  import opened Seqs

  /** A record as the API returns it: an `id` and the rest of its fields, uninterpreted. */
  datatype Record = Record(id: string, fields: seq<(string, string)>)

  /** A fetched list: a paginated response object or a bare array. */
  datatype ListPayload = Paged(results: seq<Record>) | Bare(items: seq<Record>)

  /** `action.payload.results || action.payload`: an array is truthy even when empty. */
  function ListOf(p: ListPayload): (r: seq<Record>)
    ensures p.Paged? ==> r == p.results
    ensures p.Bare? ==> r == p.items
  {
    match p
    case Paged(results) => results
    case Bare(items) => items
  }

  /** `findIndex((x) => x.id === id)`: the first position with that id, or -1. */
  function FindIndex(list: seq<Record>, id: string): (i: int)
    ensures -1 <= i < |list|
    ensures i == -1 <==> forall k :: 0 <= k < |list| ==> list[k].id != id
    ensures 0 <= i ==> list[i].id == id && forall k :: 0 <= k < i ==> list[k].id != id
  {
    if list == [] then -1
    else
      var j := FindIndex(list[..|list| - 1], id);
      if j != -1 then j
      else if list[|list| - 1].id == id then |list| - 1
      else -1
  }

  /** The fulfilled-update case: the first record with the payload's id becomes the payload. */
  function ReplaceById(list: seq<Record>, r: Record): seq<Record>
  {
    var i := FindIndex(list, r.id);
    if i == -1 then list else list[i := r]
  }

  /**
   * The list keeps its length; when no record has the id it is unchanged;
   * otherwise exactly the first record with that id is replaced, and the
   * payload is then found at that position.
   */
  lemma ReplaceByIdSpec(list: seq<Record>, r: Record)
    ensures |ReplaceById(list, r)| == |list|
    ensures (forall k :: 0 <= k < |list| ==> list[k].id != r.id) ==> ReplaceById(list, r) == list
    ensures forall k :: 0 <= k < |list| && k != FindIndex(list, r.id) ==> ReplaceById(list, r)[k] == list[k]
    ensures FindIndex(list, r.id) != -1 ==>
      ReplaceById(list, r)[FindIndex(list, r.id)] == r
      && FindIndex(ReplaceById(list, r), r.id) == FindIndex(list, r.id)
  {
    var i := FindIndex(list, r.id);
    if i != -1 {
      var after := list[i := r];
      assert forall k :: 0 <= k < i ==> after[k].id != r.id;
      assert after[i].id == r.id;
    }
  }

  /** The condition `x.id !== id`. */
  function OtherId(id: string): Record -> bool
  {
    (x: Record) => x.id != id
  }

  /** The fulfilled-delete case: `filter((x) => x.id !== id)`. */
  function RemoveById(list: seq<Record>, id: string): seq<Record>
  {
    Filter(list, OtherId(id))
  }

  /**
   * Every record with the id is gone, every other record stays, the order
   * of those is kept, and a list without the id is unchanged.
   */
  lemma RemoveByIdSpec(list: seq<Record>, id: string)
    ensures forall x :: x in RemoveById(list, id) <==> x in list && x.id != id
    ensures forall k :: 0 <= k < |RemoveById(list, id)| ==> RemoveById(list, id)[k].id != id
    ensures Subsequence(RemoveById(list, id), list)
    ensures (forall k :: 0 <= k < |list| ==> list[k].id != id) ==> RemoveById(list, id) == list
  {
    FilterIsSubsequence(list, OtherId(id));
    if forall k :: 0 <= k < |list| ==> list[k].id != id {
      FilterAll(list, OtherId(id));
    }
  }

  /** `if (current && current.id === id) current = null`. */
  function ClearIfCurrent(current: Option<Record>, id: string): (r: Option<Record>)
    ensures r.None? <==> current.None? || current.value.id == id
    ensures r.Some? ==> r == current
  {
    if current.Some? && current.value.id == id then None else current
  }
}

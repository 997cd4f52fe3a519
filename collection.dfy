/** The list operations that every screen repeats on its in-memory list of
    records: save appends or replaces by position, delete filters one position
    out. Records carry no identifier; a record is its index in the list. */
module Collection {

  /** `editingIndex`: `null` (None) or a position in the list (Some). */
  datatype Option<T> = None | Some(value: T)

  /** The list a successful save produces: `[...items, r]` when no edit is in
      progress, otherwise a copy of `items` with `r` assigned at the edited
      position. */
  function Upsert<R>(items: seq<R>, editing: Option<nat>, r: R): (result: seq<R>)
    requires editing.Some? ==> editing.value < |items|
    ensures editing.None? ==> |result| == |items| + 1 && result[|items|] == r
    ensures editing.Some? ==> |result| == |items| && result[editing.value] == r
    ensures forall k :: 0 <= k < |items| && editing != Some(k) ==> result[k] == items[k]
  {
    match editing
    case None => items + [r]
    case Some(i) => items[i := r]
  }

  /** `items.filter((_, i) => i !== index)`, written element by element from
      the end of the list, keeping each element whose position differs from
      `index`. The contract is the independent description by slicing. */
  function RemoveAt<R>(items: seq<R>, index: int): (result: seq<R>)
    ensures 0 <= index < |items| ==> result == items[..index] + items[index + 1..]
    ensures !(0 <= index < |items|) ==> result == items
    decreases |items|
  {
    if items == [] then []
    else
      var last := |items| - 1;
      var front := items[..last];
      var kept := RemoveAt(front, index);
      if last == index then
        assert items[index + 1..] == [];
        kept
      else
        assert 0 <= index < last ==> front[..index] == items[..index] && front[index + 1..] + [items[last]] == items[index + 1..];
        assert !(0 <= index < |items|) ==> front + [items[last]] == items;
        kept + [items[last]]
  }

  /** Delete at a valid position removes exactly that element: one element
      fewer, the ones before it in place, the ones after it shifted down by
      one, and the same records otherwise. */
  lemma RemoveAtShifts<R>(items: seq<R>, index: int)
    requires 0 <= index < |items|
    ensures |RemoveAt(items, index)| == |items| - 1
    ensures forall k :: 0 <= k < index ==> RemoveAt(items, index)[k] == items[k]
    ensures forall k :: index <= k < |items| - 1 ==> RemoveAt(items, index)[k] == items[k + 1]
    ensures multiset(RemoveAt(items, index)) + multiset{items[index]} == multiset(items)
  {
    var front, back := items[..index], items[index + 1..];
    var r := RemoveAt(items, index);
    assert r == front + back;
    assert items == front + [items[index]] + back;
    forall k | index <= k < |items| - 1
      ensures r[k] == items[k + 1]
    {
      assert r[k] == back[k - index];
    }
  }

  /** Saving a record back at the position it was loaded from leaves the list
      as it was. */
  lemma UpsertOwnElement<R>(items: seq<R>, index: nat)
    requires index < |items|
    ensures Upsert(items, Some(index), items[index]) == items
  {
  }

  /** Delete does not touch `editingIndex`. When a row before the edited one
      is deleted, the next save overwrites the record that followed the edited
      one, and the record that was being edited survives unchanged. */
  lemma StaleEditIndex<R>(items: seq<R>, deleted: nat, editing: nat, r: R)
    requires deleted < editing < |items| - 1
    ensures var after := RemoveAt(items, deleted);
      editing < |after| &&
      Upsert(after, Some(editing), r) == items[..deleted] + items[deleted + 1..editing + 1] + [r] + items[editing + 2..]
  {
    var after := RemoveAt(items, deleted);
    var expected := items[..deleted] + items[deleted + 1..editing + 1] + [r] + items[editing + 2..];
    var saved := Upsert(after, Some(editing), r);
    assert |saved| == |expected|;
    forall k | 0 <= k < |saved|
      ensures saved[k] == expected[k]
    {
      if k < deleted {
        assert saved[k] == items[k];
      } else if k < editing {
        assert saved[k] == items[k + 1];
      } else if k > editing {
        assert saved[k] == items[k + 1];
      }
    }
  }
}

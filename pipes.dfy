/**
 * The client-side pipe state that an item update touches: a pipe item with
 * its movement fields, and a pipe tile holding its items.
 * `PipeItem` and `TilePipe` are not part of this model beyond the members
 * the update calls; those are specified by their observable effect.
 */
module Pipes {
  import opened Wrappers
  import opened Directions
  import opened ItemUtils

  class PipeItem {
    /** The id the server assigned; never reassigned. */
    const id: int
    const owner: TilePipe
    var input: Direction
    var output: Direction
    var reachedCenter: bool
    var stuck: bool
    var progress: int
    var blocksSinceSync: int
    var stack: StackData

    /** `new PipeItem(owner, id)`: a replica with no movement state and no stack yet. */
    constructor (owner: TilePipe, id: int)
      ensures this.owner == owner && this.id == id
      ensures input.None? && output.None? && !reachedCenter && !stuck
      ensures progress == 0 && blocksSinceSync == 0 && stack == EmptyData
    {
      this.owner := owner;
      this.id := id;
      input, output := None, None;
      reachedCenter, stuck := false, false;
      progress, blocksSinceSync := 0, 0;
      stack := EmptyData;
    }

    /** `isStuck()`. */
    predicate IsStuck()
      reads this
    {
      stuck
    }

    /** `setStuckFlagClient(value)`: records the stuck flag the server sent. */
    method SetStuckFlagClient(value: bool)
      modifies this`stuck
      ensures stuck == value
    {
      stuck := value;
    }
  }

  /** Some listed item carries the id. */
  ghost predicate HasId(items: seq<PipeItem>, id: int)
  {
    exists it :: it in items && it.id == id
  }

  /** No two listed items share an id. */
  predicate UniqueIds(items: seq<PipeItem>)
  {
    forall i, j | 0 <= i < j < |items| :: items[i].id != items[j].id
  }

  /** The items with `x` taken out, in their order. */
  function Without(items: seq<PipeItem>, x: PipeItem): (r: seq<PipeItem>)
    ensures forall it | it in r :: it in items && it != x
    ensures forall it | it in items && it != x :: it in r
    ensures x !in items ==> r == items
    ensures UniqueIds(items) ==> UniqueIds(r)
  {
    if items == [] then []
    else
      var tail := Without(items[1..], x);
      if items[0] == x then tail
      else
        ConsUnique(items[0], items[1..]);
        ConsUnique(items[0], tail);
        [items[0]] + tail
  }

  /** An item in front of a list keeps ids unique exactly when the list is unique and lacks its id. */
  lemma ConsUnique(x: PipeItem, items: seq<PipeItem>)
    ensures UniqueIds([x] + items) <==> UniqueIds(items) && !HasId(items, x.id)
  {
    var s := [x] + items;
    if UniqueIds(items) && !HasId(items, x.id) {
      forall i, j | 0 <= i < j < |s| ensures s[i].id != s[j].id {
        if i == 0 {
          assert s[j] in items;
        } else {
          assert s[i] == items[i - 1] && s[j] == items[j - 1];
        }
      }
    }
    if UniqueIds(s) {
      forall i, j | 0 <= i < j < |items| ensures items[i].id != items[j].id {
        assert s[i + 1] == items[i] && s[j + 1] == items[j];
      }
      forall it | it in items ensures it.id != x.id {
        var k :| 0 <= k < |items| && items[k] == it;
        assert s[0].id != s[k + 1].id;
      }
    }
  }

  /** Appending an item with a new id keeps ids unique. */
  lemma AppendUnique(items: seq<PipeItem>, x: PipeItem)
    requires UniqueIds(items) && !HasId(items, x.id)
    ensures UniqueIds(items + [x])
  {
    var s := items + [x];
    forall i, j | 0 <= i < j < |s| ensures s[i].id != s[j].id {
      if j == |items| {
        assert s[i] in items;
      } else {
        assert s[i] == items[i] && s[j] == items[j];
      }
    }
  }

  class TilePipe {
    /** The pipe's live items (`getPipeItems()`, a set in the source). */
    var items: seq<PipeItem>

    constructor ()
      ensures items == []
    {
      items := [];
    }

    /** `getItemByID(id)`: an item of this pipe with that id, or null if there is none. */
    method GetItemByID(id: int) returns (r: PipeItem?)
      ensures r != null ==> r in items && r.id == id
      ensures r == null ==> !HasId(items, id)
    {
      for i := 0 to |items|
        invariant forall k | 0 <= k < i :: items[k].id != id
      {
        if items[i].id == id {
          return items[i];
        }
      }
      return null;
    }

    /** `removeItemClientSide(item)`: the item leaves this pipe's collection. */
    method RemoveItemClientSide(item: PipeItem)
      modifies this`items
      ensures items == Without(old(items), item)
    {
      items := Without(items, item);
    }

    /** `addItemClientSide(item)`: the item joins this pipe's collection, once. */
    method AddItemClientSide(item: PipeItem)
      modifies this`items
      ensures items == if item in old(items) then old(items) else old(items) + [item]
    {
      if item !in items {
        items := items + [item];
      }
    }
  }
}

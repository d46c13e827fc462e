/**
 * The wishlist store (src/context/WishlistContext.tsx): an ordered list of
 * product summaries with set semantics on the id.
 */
module Wishlist {
  import opened Common

  datatype WishlistItem = WishlistItem(id: int, name: string, price: int, image: string)

  /** `isInWishlist(id)`: `items.some(item => item.id === id)`. */
  predicate Contains(items: seq<WishlistItem>, id: int)
  {
    Any(items, (it: WishlistItem) => it.id == id)
  }

  predicate IdsDistinct(items: seq<WishlistItem>)
  {
    forall i, j :: 0 <= i < j < |items| ==> items[i].id != items[j].id
  }

  /** The list after `addToWishlist(item)`: unchanged when the id is present, else the item appended. */
  function Added(items: seq<WishlistItem>, item: WishlistItem): seq<WishlistItem>
  {
    if Find(items, (it: WishlistItem) => it.id == item.id).Some? then items else items + [item]
  }

  /** The list after `removeFromWishlist(id)`. */
  function Removed(items: seq<WishlistItem>, id: int): seq<WishlistItem>
  {
    Filter(items, (it: WishlistItem) => it.id != id)
  }

  /** The toggle behind the heart buttons: remove when present, otherwise add the summary. */
  function Toggled(items: seq<WishlistItem>, item: WishlistItem): seq<WishlistItem>
  {
    if Contains(items, item.id) then Removed(items, item.id) else Added(items, item)
  }

  /** Adding an id already present does nothing; otherwise the item goes at the end and the rest stays. */
  lemma AddedCases(items: seq<WishlistItem>, item: WishlistItem)
    ensures Contains(items, item.id) ==> Added(items, item) == items
    ensures !Contains(items, item.id) ==> Added(items, item) == items + [item]
  {
  }

  /** Adding the same item twice gives the same list as adding it once. */
  lemma AddedIdempotent(items: seq<WishlistItem>, item: WishlistItem)
    ensures Added(Added(items, item), item) == Added(items, item)
  {
    if !Contains(items, item.id) {
      var r := items + [item];
      assert r[|items|].id == item.id;
    }
  }

  /** After an add the id is present; after a remove it is absent. */
  lemma MembershipAfterAddRemove(items: seq<WishlistItem>, item: WishlistItem, id: int)
    ensures Contains(Added(items, item), item.id)
    ensures !Contains(Removed(items, id), id)
  {
    if !Contains(items, item.id) {
      assert (items + [item])[|items|].id == item.id;
    }
    var r := Removed(items, id);
    forall k | 0 <= k < |r| ensures r[k].id != id {
      assert r[k] in r;
    }
  }

  /** Removal drops exactly the items with that id and keeps the others, in order; an absent id is a no-op. */
  lemma RemovedExact(items: seq<WishlistItem>, more: seq<WishlistItem>, id: int, x: WishlistItem)
    ensures multiset(Removed(items, id))[x] == if x.id != id then multiset(items)[x] else 0
    ensures Removed(items + more, id) == Removed(items, id) + Removed(more, id)
    ensures !Contains(items, id) ==> Removed(items, id) == items
  {
    var keep := (it: WishlistItem) => it.id != id;
    FilterCount(items, keep, x);
    FilterAppend(items, more, keep);
    if !Contains(items, id) {
      FilterKeepsAll(items, keep);
    }
  }

  /** Adds keep ids distinct. */
  lemma AddedKeepsIdsDistinct(items: seq<WishlistItem>, item: WishlistItem)
    requires IdsDistinct(items)
    ensures IdsDistinct(Added(items, item))
  {
    if !Contains(items, item.id) {
      var r := items + [item];
      forall i, j | 0 <= i < j < |r| ensures r[i].id != r[j].id {
        if j == |items| {
          assert r[i] == items[i];
        }
      }
    }
  }

  /** Removes keep ids distinct. */
  lemma {:induction false} RemovedKeepsIdsDistinct(items: seq<WishlistItem>, id: int)
    requires IdsDistinct(items)
    ensures IdsDistinct(Removed(items, id))
  {
    if items != [] {
      assert IdsDistinct(items[1..]);
      RemovedKeepsIdsDistinct(items[1..], id);
      forall q | q in Removed(items[1..], id) ensures q.id != items[0].id {
        var k :| 0 <= k < |items[1..]| && items[1..][k] == q;
        assert items[k + 1] == q;
      }
    }
  }

  /** A toggle flips membership of the item's id. */
  lemma ToggledFlips(items: seq<WishlistItem>, item: WishlistItem)
    ensures Contains(Toggled(items, item), item.id) == !Contains(items, item.id)
  {
    MembershipAfterAddRemove(items, item, item.id);
  }

  /** One call on the store: an add of a summary or a remove by id. */
  datatype Op = Add(item: WishlistItem) | Remove(id: int)

  /** The list after running the calls in order, starting from `items`. */
  function Replay(items: seq<WishlistItem>, ops: seq<Op>): seq<WishlistItem>
    decreases |ops|
  {
    if ops == [] then items
    else
      var next := match ops[0]
        case Add(item) => Added(items, item)
        case Remove(id) => Removed(items, id);
      Replay(next, ops[1..])
  }

  /** Ids stay pairwise distinct under any sequence of adds and removes, in particular from the empty list. */
  lemma {:induction false} ReplayKeepsIdsDistinct(items: seq<WishlistItem>, ops: seq<Op>)
    requires IdsDistinct(items)
    ensures IdsDistinct(Replay(items, ops))
    decreases |ops|
  {
    if ops != [] {
      match ops[0]
      case Add(item) =>
        AddedKeepsIdsDistinct(items, item);
        ReplayKeepsIdsDistinct(Added(items, item), ops[1..]);
      case Remove(id) =>
        RemovedKeepsIdsDistinct(items, id);
        ReplayKeepsIdsDistinct(Removed(items, id), ops[1..]);
    }
  }

  /** The store behind `useWishlist()`; it starts empty. */
  class WishlistStore {
    var items: seq<WishlistItem>

    constructor()
      ensures items == [] && Valid()
    {
      items := [];
    }

    predicate Valid()
      reads this
    {
      IdsDistinct(items)
    }

    method AddToWishlist(item: WishlistItem)
      requires Valid()
      modifies this
      ensures Valid()
      ensures items == Added(old(items), item)
    {
      AddedKeepsIdsDistinct(items, item);
      if Find(items, (it: WishlistItem) => it.id == item.id).None? {
        items := items + [item];
      }
    }

    method RemoveFromWishlist(id: int)
      requires Valid()
      modifies this
      ensures Valid()
      ensures items == Removed(old(items), id)
    {
      RemovedKeepsIdsDistinct(items, id);
      items := Removed(items, id);
    }

    /** True exactly when some item has the id. */
    function IsInWishlist(id: int): (b: bool)
      reads this
      ensures b <==> exists i :: 0 <= i < |items| && items[i].id == id
    {
      Contains(items, id)
    }
  }
}

/**
 * The favourites list held in the browser (src/contexts/WishlistContext.tsx):
 * a list of products without duplicate ids.
 */
module WishlistContext {
  import opened Storefront

  /** The `addToWishlist` updater: unchanged if the id is present, otherwise appended. */
  function WishlistAdded(items: seq<Product>, p: Product): (r: seq<Product>)
    ensures AnyHas(items, ProductId, p.id) ==> r == items
    ensures !AnyHas(items, ProductId, p.id) ==> r == items + [p]
    ensures UniqueBy(items, ProductId) ==> UniqueBy(r, ProductId)
    ensures AnyHas(r, ProductId, p.id)
  {
    if AnyHas(items, ProductId, p.id) then items
    else
      AppendedUnique(items, p);
      assert (items + [p])[|items|] == p;
      items + [p]
  }

  lemma AppendedUnique(items: seq<Product>, p: Product)
    requires !AnyHas(items, ProductId, p.id)
    ensures UniqueBy(items, ProductId) ==> UniqueBy(items + [p], ProductId)
  {
    if UniqueBy(items, ProductId) {
      AppendFreshUnique(items, p, ProductId);
    }
  }

  /** The `removeFromWishlist` updater. */
  function WishlistRemoved(items: seq<Product>, id: string): (r: seq<Product>)
    ensures !AnyHas(r, ProductId, id)
    ensures forall x :: x in r <==> x in items && x.id != id
    ensures UniqueBy(items, ProductId) ==> UniqueBy(r, ProductId)
  {
    WithoutRemovesId(items, ProductId, id);
    RemovedUnique(items, id);
    Without(items, ProductId, id)
  }

  lemma RemovedUnique(items: seq<Product>, id: string)
    ensures UniqueBy(items, ProductId) ==> UniqueBy(Without(items, ProductId, id), ProductId)
  {
    if UniqueBy(items, ProductId) {
      WithoutUnique(items, ProductId, id);
    }
  }

  /** `isInWishlist(id)` */
  predicate IsInWishlist(items: seq<Product>, id: string)
  {
    exists x :: x in items && x.id == id
  }

  /** `isInWishlist` agrees with the positional test used by the updaters. */
  lemma IsInWishlistIff(items: seq<Product>, id: string)
    ensures IsInWishlist(items, id) <==> AnyHas(items, ProductId, id)
  {
    if IsInWishlist(items, id) {
      var x :| x in items && x.id == id;
      var k :| 0 <= k < |items| && items[k] == x;
      assert ProductId(items[k]) == id;
    }
  }

  /** Adding then asking finds the product; removing then asking does not. */
  lemma AddThenRemove(items: seq<Product>, p: Product)
    ensures IsInWishlist(WishlistAdded(items, p), p.id)
    ensures !IsInWishlist(WishlistRemoved(WishlistAdded(items, p), p.id), p.id)
  {
    IsInWishlistIff(WishlistAdded(items, p), p.id);
    IsInWishlistIff(WishlistRemoved(WishlistAdded(items, p), p.id), p.id);
  }

  /** Removing keeps the other products in their original order. */
  lemma RemovePreservesOrder(a: seq<Product>, b: seq<Product>, id: string)
    ensures WishlistRemoved(a + b, id) == WishlistRemoved(a, id) + WishlistRemoved(b, id)
  {
    WithoutAppend(a, b, ProductId, id);
  }

  /** The favourites provider's `items` state. */
  class WishlistProvider {
    var items: seq<Product>

    ghost predicate Valid()
      reads this
    {
      UniqueBy(items, ProductId)
    }

    constructor ()
      ensures Valid() && items == []
    {
      items := [];
    }

    method AddToWishlist(product: Product)
      requires Valid()
      modifies this
      ensures Valid()
      ensures items == WishlistAdded(old(items), product)
    {
      items := WishlistAdded(items, product);
    }

    method RemoveFromWishlist(id: string)
      requires Valid()
      modifies this
      ensures Valid()
      ensures items == WishlistRemoved(old(items), id)
    {
      items := WishlistRemoved(items, id);
    }

    function IsIn(id: string): (b: bool)
      reads this
      ensures b <==> exists x :: x in items && x.id == id
    {
      IsInWishlist(items, id)
    }

    method ClearWishlist()
      requires Valid()
      modifies this
      ensures Valid() && items == []
    {
      items := [];
    }

    /** `totalItems = items.length` */
    function TotalItems(): (n: nat)
      reads this
      requires Valid()
      ensures n == |items|
      ensures n == |set x | x in items :: x.id|
    {
      DistinctIds(items);
      |items|
    }
  }

  /** With unique ids, the list length is the number of distinct products it holds. */
  lemma {:induction false} DistinctIds(items: seq<Product>)
    requires UniqueBy(items, ProductId)
    ensures |items| == |set x | x in items :: x.id|
  {
    if items != [] {
      var rest := items[1..];
      assert UniqueBy(rest, ProductId) by {
        forall i, j | 0 <= i < j < |rest| ensures ProductId(rest[i]) != ProductId(rest[j]) {
          assert rest[i] == items[i + 1] && rest[j] == items[j + 1];
        }
      }
      DistinctIds(rest);
      forall x | x in rest ensures x.id != items[0].id {
        var j :| 0 <= j < |rest| && rest[j] == x;
        assert ProductId(items[0]) != ProductId(items[j + 1]);
      }
      IdsCons(items);
    }
  }

  lemma IdsCons(items: seq<Product>)
    requires items != []
    ensures (set x | x in items :: x.id) == {items[0].id} + (set x | x in items[1..] :: x.id)
  {
    assert items == [items[0]] + items[1..];
  }
}

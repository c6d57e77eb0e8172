/**
 * The product comparison tray (src/contexts/CompareContext.tsx): at most
 * three products, no duplicate ids.
 */
module CompareContext {
  import opened Storefront

  const MaxCompareItems: nat := 3

  /** `addToCompare`: the size guard comes first, then the duplicate guard, then the append. */
  function CompareAdded(items: seq<Product>, p: Product): seq<Product>
  {
    if |items| >= MaxCompareItems then items
    else if AnyHas(items, ProductId, p.id) then items
    else items + [p]
  }

  /** `removeFromCompare` */
  function CompareRemoved(items: seq<Product>, id: string): seq<Product>
  {
    Without(items, ProductId, id)
  }

  /** `isInCompare(id)` */
  predicate IsInCompare(items: seq<Product>, id: string)
  {
    exists x :: x in items && x.id == id
  }

  /** The tray's invariant: never more than three products, never two with the same id. */
  ghost predicate Bounded(items: seq<Product>)
  {
    |items| <= MaxCompareItems && UniqueBy(items, ProductId)
  }

  /** What `addToCompare` does in each of its three cases; a full tray rejects even a new product. */
  lemma CompareAddCases(items: seq<Product>, p: Product)
    ensures |items| >= MaxCompareItems ==> CompareAdded(items, p) == items
    ensures IsInCompare(items, p.id) ==> CompareAdded(items, p) == items
    ensures |items| < MaxCompareItems && !IsInCompare(items, p.id) ==>
              CompareAdded(items, p) == items + [p]
  {
    if IsInCompare(items, p.id) {
      var x :| x in items && x.id == p.id;
      var k :| 0 <= k < |items| && items[k] == x;
      assert ProductId(items[k]) == p.id;
    }
  }

  /** Adding keeps the tray bounded and duplicate-free. */
  lemma CompareAddBounded(items: seq<Product>, p: Product)
    requires Bounded(items)
    ensures Bounded(CompareAdded(items, p))
  {
    if |items| < MaxCompareItems && !AnyHas(items, ProductId, p.id) {
      AppendFreshUnique(items, p, ProductId);
    }
  }

  /** Removing keeps the tray bounded and duplicate-free. */
  lemma CompareRemoveBounded(items: seq<Product>, id: string)
    requires Bounded(items)
    ensures Bounded(CompareRemoved(items, id))
  {
    WithoutUnique(items, ProductId, id);
  }

  /** Removing keeps the other products in order and leaves none with the id. */
  lemma CompareRemoveOrder(a: seq<Product>, b: seq<Product>, id: string)
    ensures CompareRemoved(a + b, id) == CompareRemoved(a, id) + CompareRemoved(b, id)
    ensures !IsInCompare(CompareRemoved(a + b, id), id)
  {
    WithoutAppend(a, b, ProductId, id);
  }

  /** The comparison provider's `items` state. */
  class CompareProvider {
    var items: seq<Product>

    ghost predicate Valid()
      reads this
    {
      Bounded(items)
    }

    constructor ()
      ensures Valid() && items == []
    {
      items := [];
    }

    /** Reads the current `items`, guards, then appends. */
    method AddToCompare(product: Product)
      requires Valid()
      modifies this
      ensures Valid()
      ensures items == CompareAdded(old(items), product)
    {
      CompareAddBounded(items, product);
      if |items| >= MaxCompareItems {
        return;
      }
      if AnyHas(items, ProductId, product.id) {
        return;
      }
      items := items + [product];
    }

    method RemoveFromCompare(id: string)
      requires Valid()
      modifies this
      ensures Valid()
      ensures items == CompareRemoved(old(items), id)
    {
      CompareRemoveBounded(items, id);
      items := CompareRemoved(items, id);
    }

    method ClearCompare()
      requires Valid()
      modifies this
      ensures Valid() && items == []
    {
      items := [];
    }

    function IsIn(id: string): (b: bool)
      reads this
      ensures b <==> exists x :: x in items && x.id == id
    {
      IsInCompare(items, id)
    }
  }
}

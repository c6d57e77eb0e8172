/**
 * The storefront cart held in the browser (src/contexts/CartContext.tsx),
 * offline branch: the list updaters handed to `setItems` and the two
 * `reduce` totals. A cart item is the product together with its quantity.
 */
module CartContext {
  import opened Wrappers
  import opened Storefront

  datatype CartItem = CartItem(product: Product, quantity: int)

  function ItemId(it: CartItem): string { it.product.id }

  /** `quantity = 1` when the caller gives none. */
  const DefaultQuantity: int := 1

  /** One item's quantity raised by `amount` if it carries `id`, otherwise the item as it was. */
  function Bump(it: CartItem, id: string, amount: int): CartItem
  {
    if it.product.id == id then it.(quantity := it.quantity + amount) else it
  }

  function BumpAll(items: seq<CartItem>, id: string, amount: int): (r: seq<CartItem>)
    ensures |r| == |items|
    ensures forall k :: 0 <= k < |items| ==> r[k] == Bump(items[k], id, amount)
  {
    if items == [] then [] else [Bump(items[0], id, amount)] + BumpAll(items[1..], id, amount)
  }

  /** The `addToCart` updater: merge into an existing line, or append a new one. */
  function Added(items: seq<CartItem>, p: Product, quantity: int): seq<CartItem>
  {
    if AnyHas(items, ItemId, p.id) then BumpAll(items, p.id, quantity)
    else items + [CartItem(p, quantity)]
  }

  /** The `removeFromCart` updater. */
  function Removed(items: seq<CartItem>, id: string): seq<CartItem>
  {
    Without(items, ItemId, id)
  }

  function SetQuantity(it: CartItem, id: string, quantity: int): CartItem
  {
    if it.product.id == id then it.(quantity := quantity) else it
  }

  function SetAll(items: seq<CartItem>, id: string, quantity: int): (r: seq<CartItem>)
    ensures |r| == |items|
    ensures forall k :: 0 <= k < |items| ==> r[k] == SetQuantity(items[k], id, quantity)
  {
    if items == [] then [] else [SetQuantity(items[0], id, quantity)] + SetAll(items[1..], id, quantity)
  }

  /** `updateQuantity`: a non-positive quantity removes the line, otherwise it is overwritten. */
  function Updated(items: seq<CartItem>, id: string, quantity: int): seq<CartItem>
  {
    if quantity <= 0 then Removed(items, id) else SetAll(items, id, quantity)
  }

  /** `items.reduce((sum, item) => sum + item.quantity, 0)` */
  function TotalItems(items: seq<CartItem>): int
  {
    if items == [] then 0 else items[0].quantity + TotalItems(items[1..])
  }

  /** `items.reduce((sum, item) => sum + item.price * item.quantity, 0)` */
  function TotalPrice(items: seq<CartItem>): int
  {
    if items == [] then 0 else items[0].product.price * items[0].quantity + TotalPrice(items[1..])
  }

  // ---------------------------------------------------------------------
  // Properties of the updaters

  /** Adding a product already in the cart raises that line's quantity and leaves length and every other line alone. */
  lemma AddPresent(items: seq<CartItem>, p: Product, quantity: int)
    requires AnyHas(items, ItemId, p.id)
    ensures |Added(items, p, quantity)| == |items|
    ensures forall k :: 0 <= k < |items| && items[k].product.id != p.id ==>
              Added(items, p, quantity)[k] == items[k]
    ensures forall k :: 0 <= k < |items| && items[k].product.id == p.id ==>
              Added(items, p, quantity)[k] == items[k].(quantity := items[k].quantity + quantity)
  {
  }

  /** Adding an absent product appends it, with the requested quantity, at the end. */
  lemma AddAbsent(items: seq<CartItem>, p: Product, quantity: int)
    requires !AnyHas(items, ItemId, p.id)
    ensures Added(items, p, quantity) == items + [CartItem(p, quantity)]
  {
  }

  /** Merging changes quantities only: each id keeps its position. */
  lemma {:induction false} BumpAllIds(items: seq<CartItem>, id: string, amount: int, other: string)
    ensures AnyHas(BumpAll(items, id, amount), ItemId, other) == AnyHas(items, ItemId, other)
  {
    var r := BumpAll(items, id, amount);
    if AnyHas(items, ItemId, other) {
      var k :| 0 <= k < |items| && ItemId(items[k]) == other;
      assert ItemId(r[k]) == other;
    }
    if AnyHas(r, ItemId, other) {
      var k :| 0 <= k < |r| && ItemId(r[k]) == other;
      assert ItemId(items[k]) == other;
    }
  }

  /** Unique ids before an add stay unique after it. */
  lemma AddKeepsUnique(items: seq<CartItem>, p: Product, quantity: int)
    requires UniqueBy(items, ItemId)
    ensures UniqueBy(Added(items, p, quantity), ItemId)
  {
    if AnyHas(items, ItemId, p.id) {
      var r := BumpAll(items, p.id, quantity);
      forall i, j | 0 <= i < j < |r| ensures ItemId(r[i]) != ItemId(r[j]) {
        assert ItemId(r[i]) == ItemId(items[i]) && ItemId(r[j]) == ItemId(items[j]);
      }
    } else {
      AppendFreshUnique(items, CartItem(p, quantity), ItemId);
    }
  }

  /** Unique ids stay unique under remove and update. */
  lemma UpdateKeepsUnique(items: seq<CartItem>, id: string, quantity: int)
    requires UniqueBy(items, ItemId)
    ensures UniqueBy(Removed(items, id), ItemId)
    ensures UniqueBy(Updated(items, id, quantity), ItemId)
  {
    WithoutUnique(items, ItemId, id);
    var r := SetAll(items, id, quantity);
    forall i, j | 0 <= i < j < |r| ensures ItemId(r[i]) != ItemId(r[j]) {
      assert ItemId(r[i]) == ItemId(items[i]) && ItemId(r[j]) == ItemId(items[j]);
    }
  }

  /** A non-positive quantity in `updateQuantity` is exactly a removal. */
  lemma UpdateNonPositiveRemoves(items: seq<CartItem>, id: string, quantity: int)
    requires quantity <= 0
    ensures Updated(items, id, quantity) == Removed(items, id)
    ensures !AnyHas(Updated(items, id, quantity), ItemId, id)
  {
    WithoutRemovesId(items, ItemId, id);
  }

  /** A positive quantity overwrites only that line; it is a no-op when the id is absent. */
  lemma UpdatePositiveSets(items: seq<CartItem>, id: string, quantity: int)
    requires quantity > 0
    ensures |Updated(items, id, quantity)| == |items|
    ensures forall k :: 0 <= k < |items| ==>
              Updated(items, id, quantity)[k] ==
                (if items[k].product.id == id then items[k].(quantity := quantity) else items[k])
    ensures !AnyHas(items, ItemId, id) ==> Updated(items, id, quantity) == items
  {
    var r := Updated(items, id, quantity);
    if !AnyHas(items, ItemId, id) {
      forall k | 0 <= k < |items| ensures r[k] == items[k] {
        assert ItemId(items[k]) != id;
      }
    }
  }

  // ---------------------------------------------------------------------
  // Properties of the totals

  lemma {:induction false} TotalsAppend(a: seq<CartItem>, b: seq<CartItem>)
    ensures TotalItems(a + b) == TotalItems(a) + TotalItems(b)
    ensures TotalPrice(a + b) == TotalPrice(a) + TotalPrice(b)
  {
    if a == [] {
      assert a + b == b;
    } else {
      assert (a + b)[1..] == a[1..] + b;
      TotalsAppend(a[1..], b);
    }
  }

  /** The quantity the cart holds for `id`, summed over every line that carries it. */
  function QuantityOf(items: seq<CartItem>, id: string): int
  {
    if items == [] then 0
    else (if items[0].product.id == id then items[0].quantity else 0) + QuantityOf(items[1..], id)
  }

  /** The value of the lines that carry `id`. */
  function ValueOf(items: seq<CartItem>, id: string): int
  {
    if items == [] then 0
    else (if items[0].product.id == id then items[0].product.price * items[0].quantity else 0)
         + ValueOf(items[1..], id)
  }

  /** The count of lines that carry `id`. */
  function LinesOf(items: seq<CartItem>, id: string): nat
  {
    if items == [] then 0
    else (if items[0].product.id == id then 1 else 0) + LinesOf(items[1..], id)
  }

  /** The price of the lines that carry `id` (one unit each). */
  function UnitPriceOf(items: seq<CartItem>, id: string): int
  {
    if items == [] then 0
    else (if items[0].product.id == id then items[0].product.price else 0) + UnitPriceOf(items[1..], id)
  }

  /** Merging `amount` units into every line with `id` raises the item count by `amount` per such line and the price by each line's own unit price. */
  lemma BumpTotals(items: seq<CartItem>, id: string, amount: int)
    ensures TotalItems(BumpAll(items, id, amount)) == TotalItems(items) + amount * LinesOf(items, id)
    ensures TotalPrice(BumpAll(items, id, amount)) == TotalPrice(items) + amount * UnitPriceOf(items, id)
  {
    BumpItemCount(items, id, amount);
    BumpPrice(items, id, amount);
  }

  lemma {:induction false} BumpItemCount(items: seq<CartItem>, id: string, amount: int)
    ensures TotalItems(BumpAll(items, id, amount)) == TotalItems(items) + amount * LinesOf(items, id)
  {
    if items != [] {
      BumpItemCount(items[1..], id, amount);
      var r := BumpAll(items, id, amount);
      assert r[1..] == BumpAll(items[1..], id, amount);
      Distribute(amount, if items[0].product.id == id then 1 else 0, LinesOf(items[1..], id));
    }
  }

  lemma {:induction false} BumpPrice(items: seq<CartItem>, id: string, amount: int)
    ensures TotalPrice(BumpAll(items, id, amount)) == TotalPrice(items) + amount * UnitPriceOf(items, id)
  {
    if items != [] {
      BumpPrice(items[1..], id, amount);
      var r := BumpAll(items, id, amount);
      assert r[1..] == BumpAll(items[1..], id, amount);
      var price := items[0].product.price;
      Distribute(amount, if items[0].product.id == id then price else 0, UnitPriceOf(items[1..], id));
      if items[0].product.id == id {
        Distribute(price, items[0].quantity, amount);
        assert r[0].product.price * r[0].quantity == price * items[0].quantity + amount * price;
      }
    }
  }

  lemma Distribute(a: int, b: int, c: int)
    ensures a * (b + c) == a * b + a * c
  {
  }

  /** Removing `id` lowers the totals by exactly what its lines contributed. */
  lemma {:induction false} RemoveTotals(items: seq<CartItem>, id: string)
    ensures TotalItems(Removed(items, id)) == TotalItems(items) - QuantityOf(items, id)
    ensures TotalPrice(Removed(items, id)) == TotalPrice(items) - ValueOf(items, id)
  {
    if items != [] {
      RemoveTotals(items[1..], id);
      if items[0].product.id != id {
        assert Removed(items, id) == [items[0]] + Removed(items[1..], id);
        TotalsAppend([items[0]], Removed(items[1..], id));
      }
    }
  }

  /** Adding an absent product raises the item count by the quantity and the price by price × quantity. */
  lemma AddAbsentTotals(items: seq<CartItem>, p: Product, quantity: int)
    requires !AnyHas(items, ItemId, p.id)
    ensures TotalItems(Added(items, p, quantity)) == TotalItems(items) + quantity
    ensures TotalPrice(Added(items, p, quantity)) == TotalPrice(items) + p.price * quantity
  {
    TotalsAppend(items, [CartItem(p, quantity)]);
  }

  /** With unique ids, at most one line carries any id. */
  lemma {:induction false} UniqueLines(items: seq<CartItem>, id: string)
    requires UniqueBy(items, ItemId)
    ensures LinesOf(items, id) <= 1
    ensures LinesOf(items, id) == 1 <==> AnyHas(items, ItemId, id)
  {
    if items != [] {
      assert UniqueBy(items[1..], ItemId) by {
        forall i, j | 0 <= i < j < |items[1..]| ensures ItemId(items[1..][i]) != ItemId(items[1..][j]) {
          assert items[1..][i] == items[i + 1] && items[1..][j] == items[j + 1];
        }
      }
      UniqueLines(items[1..], id);
      if items[0].product.id == id && AnyHas(items[1..], ItemId, id) {
        assert false;
      }
      if AnyHas(items, ItemId, id) && items[0].product.id != id {
        var k :| 0 <= k < |items| && ItemId(items[k]) == id;
        assert items[1..][k - 1] == items[k];
      }
    }
  }

  /** In a cart with unique ids, adding a product already present raises the item count by exactly the added quantity. */
  lemma AddPresentTotalItems(items: seq<CartItem>, p: Product, quantity: int)
    requires UniqueBy(items, ItemId) && AnyHas(items, ItemId, p.id)
    ensures TotalItems(Added(items, p, quantity)) == TotalItems(items) + quantity
  {
    BumpTotals(items, p.id, quantity);
    UniqueLines(items, p.id);
  }

  // ---------------------------------------------------------------------
  // The provider's state

  /** The `items` state of the cart provider, replaced on every operation. */
  class CartProvider {
    var items: seq<CartItem>

    constructor ()
      ensures items == []
    {
      items := [];
    }

    /** `addToCart(product, quantity = 1)` */
    method AddToCart(product: Product, quantity: Option<int>)
      modifies this
      ensures var q := if quantity.Some? then quantity.value else DefaultQuantity;
              items == Added(old(items), product, q)
      ensures UniqueBy(old(items), ItemId) ==> UniqueBy(items, ItemId)
    {
      var q := if quantity.Some? then quantity.value else DefaultQuantity;
      if UniqueBy(items, ItemId) { AddKeepsUnique(items, product, q); }
      items := Added(items, product, q);
    }

    method RemoveFromCart(id: string)
      modifies this
      ensures items == Removed(old(items), id)
      ensures !AnyHas(items, ItemId, id)
      ensures UniqueBy(old(items), ItemId) ==> UniqueBy(items, ItemId)
    {
      WithoutRemovesId(items, ItemId, id);
      if UniqueBy(items, ItemId) { UpdateKeepsUnique(items, id, 0); }
      items := Removed(items, id);
    }

    method UpdateQuantity(id: string, quantity: int)
      modifies this
      ensures items == Updated(old(items), id, quantity)
      ensures UniqueBy(old(items), ItemId) ==> UniqueBy(items, ItemId)
    {
      if UniqueBy(items, ItemId) { UpdateKeepsUnique(items, id, quantity); }
      if quantity <= 0 {
        RemoveFromCart(id);
        return;
      }
      items := SetAll(items, id, quantity);
    }

    method ClearCart()
      modifies this
      ensures items == []
    {
      items := [];
    }
  }
}

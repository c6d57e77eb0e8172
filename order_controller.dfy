/**
 * Order creation and status updates (backend/src/controllers/order.controller.js).
 *
 * `createOrder` computes the totals, inserts one order row and one line row
 * per item, and decrements each product's stock, all inside one store
 * transaction: either every write persists or none does. Of the store's
 * constraints that can abort it, these are modelled: a NULL `product_name`,
 * a line naming a product that does not exist (foreign key), a missing
 * shipping address (NOT NULL) and an order number already in use (UNIQUE).
 * Column widths and numeric ranges (VARCHAR, DECIMAL(10,2), INTEGER) are
 * not modelled, so an order the store refuses for them is accepted here.
 */
module OrderController {
  import opened Wrappers
  import opened Schema

  // ---------------------------------------------------------------------
  // Order status vocabulary

  datatype Status = Pending | Processing | Shipped | Delivered | Cancelled

  function StatusName(s: Status): string
  {
    match s
    case Pending => "pending"
    case Processing => "processing"
    case Shipped => "shipped"
    case Delivered => "delivered"
    case Cancelled => "cancelled"
  }

  /** `validStatuses.includes(status)`, returning the status it names. */
  function ParseStatus(s: string): Option<Status>
  {
    if s == "pending" then Some(Pending)
    else if s == "processing" then Some(Processing)
    else if s == "shipped" then Some(Shipped)
    else if s == "delivered" then Some(Delivered)
    else if s == "cancelled" then Some(Cancelled)
    else None
  }

  /** The vocabulary is accepted exactly: every status parses back from its name, and nothing else parses. */
  lemma StatusVocabulary(s: string, st: Status)
    ensures ParseStatus(StatusName(st)) == Some(st)
    ensures ParseStatus(s) == Some(st) <==> s == StatusName(st)
    ensures ParseStatus(s).None? <==> s !in {"pending", "processing", "shipped", "delivered", "cancelled"}
  {
  }

  // ---------------------------------------------------------------------
  // Rows and requests

  /** One element of the request's `items`; `name` is read from `item.name`. */
  datatype LineInput = LineInput(productId: Option<ProductId>, name: Option<string>, price: real, quantity: int)

  datatype OrderRow = OrderRow(
    userId: UserId,
    orderNumber: string,
    status: Status,
    subtotal: real,
    tax: real,
    shippingCost: real,
    total: real,
    shippingAddress: string,
    billingAddress: string,
    paymentMethod: Option<string>)

  datatype OrderLine = OrderLine(
    orderId: nat,
    productId: Option<ProductId>,
    productName: string,
    productPrice: real,
    quantity: int,
    subtotal: real)

  /**
   * JavaScript truthiness of a body value, read from its JSON text: `""`, `0`, `false` and `null` are the falsy
   * values a JSON body can carry.
   */
  predicate JsonTruthy(json: string)
  {
    json !in {"\"\"", "0", "false", "null"}
  }

  /** The request body; addresses are their JSON text. */
  datatype OrderRequest = OrderRequest(
    items: Option<seq<LineInput>>,
    shippingAddress: Option<string>,
    billingAddress: Option<string>,
    paymentMethod: Option<string>)

  /** The three tables the transaction writes. An order's id is its position in `orders`. */
  datatype Tables = Tables(products: map<ProductId, ProductRow>, orders: seq<OrderRow>, lines: seq<OrderLine>)

  datatype Outcome = Outcome(status: int, order: Option<OrderRow>)

  const TaxRate: real := 0.18
  const ShippingCost: real := 0.0

  // ---------------------------------------------------------------------
  // The specification of createOrder

  function LineSubtotal(it: LineInput): real { it.price * (it.quantity as real) }

  /** Σ price × quantity over the items. */
  function Subtotal(items: seq<LineInput>): real
  {
    if items == [] then 0.0 else Subtotal(items[..|items| - 1]) + LineSubtotal(items[|items| - 1])
  }

  /** The total quantity the items order of product `id`; repeated ids accumulate. */
  function QuantityOrdered(items: seq<LineInput>, id: ProductId): int
  {
    if items == [] then 0
    else QuantityOrdered(items[..|items| - 1], id)
         + (if items[|items| - 1].productId == Some(id) then items[|items| - 1].quantity else 0)
  }

  predicate Names(items: seq<LineInput>, id: ProductId)
  {
    exists i :: 0 <= i < |items| && items[i].productId == Some(id)
  }

  /** A line's INSERT fails: NULL `product_name`, or a product id with no product row. */
  predicate LineRejected(products: map<ProductId, ProductRow>, it: LineInput)
  {
    it.name.None? || (it.productId.Some? && it.productId.value !in products)
  }

  /** The stock UPDATE for one line: decrement without any check, then re-derive `in_stock`. */
  function Decremented(p: ProductRow, quantity: int): ProductRow
  {
    p.(stockQuantity := p.stockQuantity - quantity, inStock := p.stockQuantity - quantity > 0)
  }

  /** The product table once every item has been applied. */
  function StockAfter(products: map<ProductId, ProductRow>, items: seq<LineInput>): map<ProductId, ProductRow>
  {
    map id | id in products ::
      if Names(items, id) then Decremented(products[id], QuantityOrdered(items, id)) else products[id]
  }

  function LineOf(orderId: nat, it: LineInput): OrderLine
    requires it.name.Some?
  {
    OrderLine(orderId, it.productId, it.name.value, it.price, it.quantity, LineSubtotal(it))
  }

  function LinesFor(orderId: nat, items: seq<LineInput>): seq<OrderLine>
    requires forall i :: 0 <= i < |items| ==> items[i].name.Some?
  {
    seq(|items|, i requires 0 <= i < |items| => LineOf(orderId, items[i]))
  }

  predicate NumberTaken(orders: seq<OrderRow>, orderNumber: string)
  {
    exists k :: 0 <= k < |orders| && orders[k].orderNumber == orderNumber
  }

  function NewOrder(userId: UserId, orderNumber: string, req: OrderRequest, items: seq<LineInput>): OrderRow
    requires req.shippingAddress.Some?
  {
    var subtotal := Subtotal(items);
    var tax := subtotal * TaxRate;
    OrderRow(userId, orderNumber, Pending, subtotal, tax, ShippingCost, subtotal + tax + ShippingCost,
             req.shippingAddress.value,
             if req.billingAddress.Some? && JsonTruthy(req.billingAddress.value) then req.billingAddress.value
             else req.shippingAddress.value,
             req.paymentMethod)
  }

  /** The whole handler as one state transition: 400 for an empty cart, 500 and no change when a modelled constraint refuses a write, 201 with every write otherwise. */
  function CreateOrderSpec(t: Tables, userId: UserId, orderNumber: string, req: OrderRequest): (Tables, Outcome)
  {
    if req.items.None? || |req.items.value| == 0 then (t, Outcome(400, None))
    else
      var items := req.items.value;
      if req.shippingAddress.None? || NumberTaken(t.orders, orderNumber) then (t, Outcome(500, None))
      else if exists i :: 0 <= i < |items| && LineRejected(t.products, items[i]) then (t, Outcome(500, None))
      else
        var row := NewOrder(userId, orderNumber, req, items);
        (Tables(StockAfter(t.products, items), t.orders + [row], t.lines + LinesFor(|t.orders|, items)),
         Outcome(201, Some(row)))
  }

  // ---------------------------------------------------------------------
  // What the transaction promises

  /** Σ of the lines' own subtotals. */
  function LinesTotal(lines: seq<OrderLine>): real
  {
    if lines == [] then 0.0 else LinesTotal(lines[..|lines| - 1]) + lines[|lines| - 1].subtotal
  }

  /** Only three answers, and only 201 writes anything: the transaction is all or nothing. */
  lemma AllOrNothing(t: Tables, userId: UserId, orderNumber: string, req: OrderRequest)
    ensures var (t', out) := CreateOrderSpec(t, userId, orderNumber, req);
            && out.status in {201, 400, 500}
            && (out.status != 201 ==> t' == t && out.order.None?)
            && (out.status == 201 ==> out.order.Some? && |t'.orders| == |t.orders| + 1
                                      && t'.orders[|t.orders|] == out.order.value)
  {
  }

  /** An absent or empty item list is refused before the transaction begins. */
  lemma EmptyCartRejected(t: Tables, userId: UserId, orderNumber: string, req: OrderRequest)
    requires req.items.None? || req.items == Some([])
    ensures CreateOrderSpec(t, userId, orderNumber, req) == (t, Outcome(400, None))
  {
  }

  /** Items without `name` (the checkout page sends `productName`) abort the whole order. */
  lemma NamelessItemRollsBack(t: Tables, userId: UserId, orderNumber: string, req: OrderRequest, i: nat)
    requires req.items.Some? && i < |req.items.value| && req.items.value[i].name.None?
    ensures CreateOrderSpec(t, userId, orderNumber, req) == (t, Outcome(500, None))
  {
    assert LineRejected(t.products, req.items.value[i]);
  }

  /** A committed order carries 18% tax on the items' subtotal, free shipping, status pending, and the shipping address as billing address unless a truthy one is given. */
  lemma OrderTotals(t: Tables, userId: UserId, orderNumber: string, req: OrderRequest)
    requires CreateOrderSpec(t, userId, orderNumber, req).1.status == 201
    ensures var o := CreateOrderSpec(t, userId, orderNumber, req).1.order.value;
            && o.subtotal == Subtotal(req.items.value)
            && o.tax == o.subtotal * 0.18
            && o.shippingCost == 0.0
            && o.total == o.subtotal * 1.18
            && o.status == Pending
            && o.userId == userId && o.orderNumber == orderNumber
            && o.billingAddress == (if req.billingAddress.Some? && JsonTruthy(req.billingAddress.value) then req.billingAddress.value
                                    else req.shippingAddress.value)
  {
  }

  lemma {:induction false} LinesTotalIsSubtotal(orderId: nat, items: seq<LineInput>)
    requires forall i :: 0 <= i < |items| ==> items[i].name.Some?
    ensures LinesTotal(LinesFor(orderId, items)) == Subtotal(items)
  {
    if items != [] {
      var init := items[..|items| - 1];
      assert LinesFor(orderId, items)[..|items| - 1] == LinesFor(orderId, init);
      LinesTotalIsSubtotal(orderId, init);
    }
  }

  /** The line written for each item copies its product, name, price and quantity and records price × quantity. */
  lemma LinesForFields(orderId: nat, items: seq<LineInput>)
    requires forall i :: 0 <= i < |items| ==> items[i].name.Some?
    ensures var ls := LinesFor(orderId, items);
            && |ls| == |items|
            && forall k :: 0 <= k < |items| ==>
                 && ls[k].orderId == orderId
                 && ls[k].productId == items[k].productId
                 && Some(ls[k].productName) == items[k].name
                 && ls[k].productPrice == items[k].price
                 && ls[k].quantity == items[k].quantity
                 && ls[k].subtotal == items[k].price * (items[k].quantity as real)
  {
  }

  /** A committed order appends one line per item, in item order, tagged with the new order's id, and the lines add up to the order's subtotal. */
  lemma OneLinePerItem(t: Tables, userId: UserId, orderNumber: string, req: OrderRequest)
    requires CreateOrderSpec(t, userId, orderNumber, req).1.status == 201
    ensures var (t', out) := CreateOrderSpec(t, userId, orderNumber, req);
            && (forall i :: 0 <= i < |req.items.value| ==> req.items.value[i].name.Some?)
            && t'.lines == t.lines + LinesFor(|t.orders|, req.items.value)
            && LinesTotal(t'.lines[|t.lines|..]) == out.order.value.subtotal
  {
    var (t', out) := CreateOrderSpec(t, userId, orderNumber, req);
    var items := req.items.value;
    assert forall i :: 0 <= i < |items| ==> !LineRejected(t.products, items[i]);
    assert t'.lines[|t.lines|..] == LinesFor(|t.orders|, items);
    LinesTotalIsSubtotal(|t.orders|, items);
  }

  /** A committed order lowers each product's stock by the total quantity ordered of it, with no floor, and re-derives `in_stock` for the products it touches. */
  lemma StockChange(t: Tables, userId: UserId, orderNumber: string, req: OrderRequest)
    requires CreateOrderSpec(t, userId, orderNumber, req).1.status == 201
    ensures var p' := CreateOrderSpec(t, userId, orderNumber, req).0.products;
            var items := req.items.value;
            && p'.Keys == t.products.Keys
            && (forall id :: id in t.products ==>
                  && p'[id].stockQuantity == t.products[id].stockQuantity - QuantityOrdered(items, id)
                  && p'[id].inStock == (if Names(items, id) then p'[id].stockQuantity > 0 else t.products[id].inStock)
                  && p'[id] == t.products[id].(stockQuantity := p'[id].stockQuantity, inStock := p'[id].inStock))
  {
    var items := req.items.value;
    forall id | id in t.products && !Names(items, id)
      ensures QuantityOrdered(items, id) == 0
    {
      UnnamedOrdersNothing(items, id);
    }
  }

  /** Committing an order keeps `in_stock` consistent with the stock count. */
  lemma InStockStaysConsistent(t: Tables, userId: UserId, orderNumber: string, req: OrderRequest)
    requires InStockConsistent(t.products)
    ensures InStockConsistent(CreateOrderSpec(t, userId, orderNumber, req).0.products)
  {
    if CreateOrderSpec(t, userId, orderNumber, req).1.status == 201 {
      StockChange(t, userId, orderNumber, req);
    }
  }

  /** Nothing stops an order for more than is in stock: one unit on hand, two ordered, the order is accepted and the stock goes to -1. */
  lemma OversellAccepted(frame: ProductRow)
    ensures var p := frame.(price := 95000.0, stockQuantity := 1, inStock := true);
            var t := Tables(map["f1" := p], [], []);
            var req := OrderRequest(Some([LineInput(Some("f1"), Some("Frame"), 95000.0, 2)]), Some("addr"), None, None);
            var (t', out) := CreateOrderSpec(t, "u1", "LV-1", req);
            && out.status == 201
            && out.order.value.subtotal == 190000.0
            && out.order.value.tax == 34200.0
            && out.order.value.total == 224200.0
            && out.order.value.billingAddress == "addr"
            && t'.products["f1"].stockQuantity == -1
            && !t'.products["f1"].inStock
  {
    var p := frame.(price := 95000.0, stockQuantity := 1, inStock := true);
    var items := [LineInput(Some("f1"), Some("Frame"), 95000.0, 2)];
    assert items[..0] == [];
    assert Names(items, "f1") by { assert items[0].productId == Some("f1"); }
    assert QuantityOrdered(items, "f1") == 2;
    assert Subtotal(items) == 190000.0;
  }

  // ---------------------------------------------------------------------
  // Steps used by the transaction's loop

  lemma SubtotalStep(items: seq<LineInput>, i: nat)
    requires i < |items|
    ensures Subtotal(items[..i + 1]) == Subtotal(items[..i]) + LineSubtotal(items[i])
  {
    assert items[..i + 1][..i] == items[..i];
  }

  /** Items that never name a product order none of it. */
  lemma {:induction false} UnnamedOrdersNothing(items: seq<LineInput>, id: ProductId)
    requires !Names(items, id)
    ensures QuantityOrdered(items, id) == 0
  {
    if items != [] {
      UnnamedOrdersNothing(items[..|items| - 1], id);
    }
  }

  /** One more item changes only the stock of the product it names, by its quantity. */
  lemma StockAfterKey(products: map<ProductId, ProductRow>, s: seq<LineInput>, it: LineInput, id: ProductId)
    requires id in products
    ensures StockAfter(products, s + [it])[id] ==
              if it.productId == Some(id) then Decremented(StockAfter(products, s)[id], it.quantity)
              else StockAfter(products, s)[id]
  {
    var s' := s + [it];
    assert s'[..|s|] == s && s'[|s|] == it;
    assert QuantityOrdered(s', id) == QuantityOrdered(s, id) + (if it.productId == Some(id) then it.quantity else 0);
    if Names(s, id) {
      var k :| 0 <= k < |s| && s[k].productId == Some(id);
      assert s'[k] == s[k];
    } else {
      UnnamedOrdersNothing(s, id);
      if Names(s', id) {
        var k :| 0 <= k < |s'| && s'[k].productId == Some(id);
        assert k == |s|;
      }
    }
  }

  lemma StockAfterStep(products: map<ProductId, ProductRow>, items: seq<LineInput>, i: nat)
    requires i < |items|
    requires items[i].productId.Some? ==> items[i].productId.value in products
    ensures var before := StockAfter(products, items[..i]);
            StockAfter(products, items[..i + 1]) ==
              if items[i].productId.Some?
              then before[items[i].productId.value := Decremented(before[items[i].productId.value], items[i].quantity)]
              else before
  {
    var s := items[..i];
    var s' := items[..i + 1];
    assert s' == s + [items[i]];
    var before := StockAfter(products, s);
    var after := StockAfter(products, s');
    var expected := if items[i].productId.Some?
      then before[items[i].productId.value := Decremented(before[items[i].productId.value], items[i].quantity)]
      else before;
    forall id | id in products
      ensures after[id] == expected[id]
    {
      StockAfterKey(products, s, items[i], id);
    }
    assert after == expected;
  }

  lemma LinesForStep(orderId: nat, items: seq<LineInput>, i: nat)
    requires i < |items| && forall j :: 0 <= j < |items| ==> items[j].name.Some?
    ensures LinesFor(orderId, items[..i + 1]) == LinesFor(orderId, items[..i]) + [LineOf(orderId, items[i])]
  {
  }

  // ---------------------------------------------------------------------
  // The handler's two loops

  /** The totals loop: Σ price × quantity over the items. */
  method SumSubtotals(items: seq<LineInput>) returns (subtotal: real)
    ensures subtotal == Subtotal(items)
  {
    subtotal := 0.0;
    for i := 0 to |items|
      invariant subtotal == Subtotal(items[..i])
    {
      SubtotalStep(items, i);
      subtotal := subtotal + items[i].price * (items[i].quantity as real);
    }
    assert items[..|items|] == items;
  }

  /**
   * The per-item loop inside the transaction, on the transaction's copies of the two tables: one line insert and
   * one stock update per item, stopping at the first item the store refuses.
   */
  method InsertLines(products: map<ProductId, ProductRow>, lines: seq<OrderLine>, orderId: nat, items: seq<LineInput>)
    returns (rejected: bool, txProducts: map<ProductId, ProductRow>, txLines: seq<OrderLine>)
    ensures rejected <==> exists i :: 0 <= i < |items| && LineRejected(products, items[i])
    ensures !rejected ==>
              && (forall i :: 0 <= i < |items| ==> items[i].name.Some?)
              && txProducts == StockAfter(products, items)
              && txLines == lines + LinesFor(orderId, items)
  {
    txProducts := products;
    txLines := lines;
    for i := 0 to |items|
      invariant forall j :: 0 <= j < i ==> !LineRejected(products, items[j])
      invariant txLines == lines + LinesFor(orderId, items[..i])
      invariant txProducts == StockAfter(products, items[..i])
      invariant txProducts.Keys == products.Keys
    {
      var it := items[i];
      if it.name.None? || (it.productId.Some? && it.productId.value !in txProducts) {
        assert LineRejected(products, items[i]);
        return true, products, lines;
      }
      LinesForStep(orderId, items[..i + 1], i);
      assert items[..i + 1][..i] == items[..i];
      txLines := txLines + [LineOf(orderId, it)];
      StockAfterStep(products, items, i);
      if it.productId.Some? {
        var id := it.productId.value;
        txProducts := txProducts[id := Decremented(txProducts[id], it.quantity)];
      }
    }
    assert items[..|items|] == items;
    rejected := false;
  }

  // ---------------------------------------------------------------------
  // The tables as the handler updates them

  class OrderTables {
    var products: map<ProductId, ProductRow>
    var orders: seq<OrderRow>
    var lines: seq<OrderLine>

    function State(): Tables
      reads this
    {
      Tables(products, orders, lines)
    }

    /** The store's own guarantees: order numbers are unique and every line belongs to an existing order. */
    ghost predicate Valid()
      reads this
    {
      && (forall a, b :: 0 <= a < b < |orders| ==> orders[a].orderNumber != orders[b].orderNumber)
      && (forall l :: l in lines ==> l.orderId < |orders|)
    }

    constructor (products: map<ProductId, ProductRow>)
      ensures Valid() && State() == Tables(products, [], [])
    {
      this.products := products;
      orders := [];
      lines := [];
    }

    /** `createOrder`: the totals loop, the order insert, then one line insert and one stock update per item, committed together. */
    method CreateOrder(userId: UserId, orderNumber: string, req: OrderRequest) returns (status: int, order: Option<OrderRow>)
      requires Valid()
      modifies this
      ensures Valid()
      ensures (State(), Outcome(status, order)) == CreateOrderSpec(old(State()), userId, orderNumber, req)
    {
      if req.items.None? || |req.items.value| == 0 {
        return 400, None;
      }
      var items := req.items.value;

      var subtotal := SumSubtotals(items);
      var tax := subtotal * TaxRate;
      var shippingCost := ShippingCost;
      var total := subtotal + tax + shippingCost;

      if req.shippingAddress.None? || NumberTaken(orders, orderNumber) {
        return 500, None;
      }
      var billing := if req.billingAddress.Some? && JsonTruthy(req.billingAddress.value) then req.billingAddress.value
                     else req.shippingAddress.value;
      var row := OrderRow(userId, orderNumber, Pending, subtotal, tax, shippingCost, total,
                          req.shippingAddress.value, billing, req.paymentMethod);

      var rejected, txProducts, txLines := InsertLines(products, lines, |orders|, items);
      if rejected {
        return 500, None;
      }
      assert forall l :: l in txLines ==> l.orderId < |orders| + 1 by {
        LinesForFields(|orders|, items);
      }
      products, orders, lines := txProducts, orders + [row], txLines;
      return 201, Some(row);
    }

    /** `updateOrderStatus`: 400 outside the vocabulary, 404 for an unknown order, otherwise only that order's status changes. */
    method UpdateOrderStatus(id: int, status: string) returns (code: int)
      requires Valid()
      modifies this
      ensures Valid()
      ensures products == old(products) && lines == old(lines) && |orders| == |old(orders)|
      ensures ParseStatus(status).None? ==> code == 400 && orders == old(orders)
      ensures ParseStatus(status).Some? && !(0 <= id < |orders|) ==> code == 404 && orders == old(orders)
      ensures ParseStatus(status).Some? && 0 <= id < |orders| ==>
                code == 200 && orders == old(orders)[id := old(orders)[id].(status := ParseStatus(status).value)]
    {
      var parsed := ParseStatus(status);
      if parsed.None? {
        return 400;
      }
      if !(0 <= id < |orders|) {
        return 404;
      }
      orders := orders[id := orders[id].(status := parsed.value)];
      return 200;
    }
  }
}

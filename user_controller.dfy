/**
 * The signed-in user's server-side cart and wishlist
 * (backend/src/controllers/user.controller.js). Both tables are keyed by
 * (user, product): the schema declares that pair UNIQUE on each, and the
 * product column references the product table, so a product id the
 * catalog does not hold makes the write fail with 500.
 *
 * Both `product_id` and `quantity` are nullable. A body without
 * `productId` binds NULL, which passes the foreign key and which the
 * UNIQUE constraint does not compare, so every such call adds a new row.
 * A NULL is `None` here.
 */
module UserController {
  import opened Wrappers
  import opened Schema

  /** A cart row; `None` stands for a NULL column. */
  datatype CartRow = CartRow(userId: UserId, productId: Option<ProductId>, quantity: Option<int>)

  /** SQL `+`: NULL plus anything is NULL. */
  function Plus(q: Option<int>, amount: int): (r: Option<int>)
    ensures r.Some? <==> q.Some?
    ensures q.Some? ==> r.value - q.value == amount
  {
    if q.Some? then Some(q.value + amount) else None
  }

  /** Rows are identified by their id; each (user, product) pair with a non-NULL product has at most one row. */
  ghost predicate UniquePairs(cart: map<nat, CartRow>)
  {
    forall a, b ::
      (a in cart && b in cart && cart[a].productId.Some?
       && cart[a].userId == cart[b].userId && cart[a].productId == cart[b].productId) ==> a == b
  }

  ghost predicate HasRow(cart: map<nat, CartRow>, userId: UserId, productId: ProductId)
  {
    exists id :: id in cart && cart[id].userId == userId && cart[id].productId == Some(productId)
  }

  /** The quantity of `productId` in the user's cart: 0 without a row, `None` when the row's quantity is NULL. */
  ghost function QuantityOf(cart: map<nat, CartRow>, userId: UserId, productId: ProductId): Option<int>
  {
    if HasRow(cart, userId, productId) then
      var id :| id in cart && cart[id].userId == userId && cart[id].productId == Some(productId);
      cart[id].quantity
    else Some(0)
  }

  lemma QuantityOfRow(cart: map<nat, CartRow>, id: nat)
    requires UniquePairs(cart) && id in cart && cart[id].productId.Some?
    ensures QuantityOf(cart, cart[id].userId, cart[id].productId.value) == cart[id].quantity
  {
  }

  /**
   * `after` is `before` with `amount` added to the (user, product) pair: the pair now has a row, its quantity
   * grew by `amount` (a NULL quantity stays NULL), every other pair's quantity is unchanged, rows with a NULL
   * product are untouched, existing rows keep their pair, and any new row is the pair's.
   */
  ghost predicate Upserted(before: map<nat, CartRow>, after: map<nat, CartRow>, userId: UserId, productId: ProductId, amount: int)
  {
    && UniquePairs(after)
    && HasRow(after, userId, productId)
    && QuantityOf(after, userId, productId) == Plus(QuantityOf(before, userId, productId), amount)
    && (forall u, p :: (u, p) != (userId, productId) ==> QuantityOf(after, u, p) == QuantityOf(before, u, p))
    && (forall id :: id in before ==>
          id in after && after[id].userId == before[id].userId && after[id].productId == before[id].productId)
    && (forall id :: id in before && before[id].productId.None? ==> after[id] == before[id])
    && (forall id :: id in after && id !in before ==> after[id].userId == userId && after[id].productId == Some(productId))
  }

  /** The rows a user owns. */
  function RowsOf(cart: map<nat, CartRow>, userId: UserId): set<nat>
  {
    set id | id in cart && cart[id].userId == userId
  }

  class UserTables {
    var cart: map<nat, CartRow>
    var nextCartId: nat
    var wishlist: set<(UserId, ProductId)>
    /** Wishlist rows whose product is NULL, one occurrence of the owner per row. */
    var nullWishlist: multiset<UserId>

    ghost predicate Valid()
      reads this
    {
      && UniquePairs(cart)
      && forall id :: id in cart ==> id < nextCartId
    }

    constructor ()
      ensures Valid() && cart == map[] && wishlist == {} && nullWishlist == multiset{}
    {
      cart := map[];
      nextCartId := 0;
      wishlist := {};
      nullWishlist := multiset{};
    }

    /**
     * `addToWishlist`: insert the pair, or do nothing if it is already there; 201 either way. Without a
     * product id the row's product is NULL, which no constraint refuses, so a new row is added every time.
     */
    method AddToWishlist(products: set<ProductId>, userId: UserId, productId: Option<ProductId>) returns (status: int)
      requires Valid()
      modifies this
      ensures Valid() && cart == old(cart)
      ensures productId.None? ==>
                status == 201 && wishlist == old(wishlist) && nullWishlist == old(nullWishlist) + multiset{userId}
      ensures productId.Some? && productId.value !in products ==>
                status == 500 && wishlist == old(wishlist) && nullWishlist == old(nullWishlist)
      ensures productId.Some? && productId.value in products ==>
                status == 201 && wishlist == old(wishlist) + {(userId, productId.value)} && nullWishlist == old(nullWishlist)
    {
      if productId.None? {
        nullWishlist := nullWishlist + multiset{userId};
        return 201;
      }
      if productId.value !in products {
        return 500;
      }
      wishlist := wishlist + {(userId, productId.value)};
      return 201;
    }

    /** `removeFromWishlist`: delete only the caller's pair for that product; 200 whether or not it existed. */
    method RemoveFromWishlist(userId: UserId, productId: ProductId) returns (status: int)
      requires Valid()
      modifies this
      ensures Valid() && cart == old(cart) && nullWishlist == old(nullWishlist)
      ensures status == 200 && wishlist == old(wishlist) - {(userId, productId)}
    {
      wishlist := wishlist - {(userId, productId)};
      return 200;
    }

    /**
     * `addToCart`: an upsert on (user, product); the quantity defaults to 1 and adds to an existing row.
     * Without a product id the conflict target never matches, so a new row with a NULL product is added.
     */
    method AddToCart(products: set<ProductId>, userId: UserId, productId: Option<ProductId>, quantity: Option<int>) returns (status: int)
      requires Valid()
      modifies this
      ensures Valid() && wishlist == old(wishlist) && nullWishlist == old(nullWishlist)
      ensures productId.None? ==>
                && status == 201 && old(nextCartId) !in old(cart)
                && cart == old(cart)[old(nextCartId) := CartRow(userId, None, Some(if quantity.Some? then quantity.value else 1))]
      ensures productId.Some? && productId.value !in products ==> status == 500 && cart == old(cart)
      ensures productId.Some? && productId.value in products ==>
                status == 201 && Upserted(old(cart), cart, userId, productId.value, if quantity.Some? then quantity.value else 1)
    {
      var amount := if quantity.Some? then quantity.value else 1;
      if productId.None? {
        cart := cart[nextCartId := CartRow(userId, None, Some(amount))];
        nextCartId := nextCartId + 1;
        return 201;
      }
      if productId.value !in products {
        return 500;
      }
      cart, nextCartId := Upsert(cart, nextCartId, userId, productId.value, amount);
      return 201;
    }

    /**
     * `updateCartItem`: 400 for a quantity ≤ 0, 404 unless the row exists and belongs to the caller, otherwise
     * set its quantity. An absent quantity is not ≤ 0 (`undefined <= 0` is false), so it is written as NULL.
     */
    method UpdateCartItem(userId: UserId, id: nat, quantity: Option<int>) returns (status: int)
      requires Valid()
      modifies this
      ensures Valid() && wishlist == old(wishlist) && nullWishlist == old(nullWishlist)
      ensures quantity.Some? && quantity.value <= 0 ==> status == 400 && cart == old(cart)
      ensures !(quantity.Some? && quantity.value <= 0) && !(id in old(cart) && old(cart)[id].userId == userId) ==>
                status == 404 && cart == old(cart)
      ensures !(quantity.Some? && quantity.value <= 0) && id in old(cart) && old(cart)[id].userId == userId ==>
                status == 200 && cart == old(cart)[id := old(cart)[id].(quantity := quantity)]
    {
      if quantity.Some? && quantity.value <= 0 {
        return 400;
      }
      if !(id in cart && cart[id].userId == userId) {
        return 404;
      }
      cart := cart[id := cart[id].(quantity := quantity)];
      return 200;
    }

    /** `removeFromCart`: delete the row only if the caller owns it; 200 in every case. */
    method RemoveFromCart(userId: UserId, id: nat) returns (status: int)
      requires Valid()
      modifies this
      ensures Valid() && wishlist == old(wishlist) && nullWishlist == old(nullWishlist)
      ensures status == 200
      ensures id in old(cart) && old(cart)[id].userId == userId ==> cart == old(cart) - {id}
      ensures !(id in old(cart) && old(cart)[id].userId == userId) ==> cart == old(cart)
    {
      if id in cart && cart[id].userId == userId {
        cart := cart - {id};
      }
      return 200;
    }

    /** `clearCart`: remove exactly the caller's rows. */
    method ClearCart(userId: UserId) returns (status: int)
      requires Valid()
      modifies this
      ensures Valid() && wishlist == old(wishlist) && nullWishlist == old(nullWishlist)
      ensures status == 200
      ensures RowsOf(cart, userId) == {}
      ensures forall id :: id in old(cart) && old(cart)[id].userId != userId ==> id in cart && cart[id] == old(cart)[id]
      ensures forall id :: id in cart ==> id in old(cart)
    {
      cart := map id | id in cart && cart[id].userId != userId :: cart[id];
      return 200;
    }
  }

  /** The cart statement's `INSERT … ON CONFLICT (user_id, product_id) DO UPDATE SET quantity = cart.quantity + $3`. */
  method Upsert(cart: map<nat, CartRow>, nextId: nat, userId: UserId, productId: ProductId, amount: int)
    returns (cart': map<nat, CartRow>, nextId': nat)
    requires UniquePairs(cart) && forall id :: id in cart ==> id < nextId
    ensures Upserted(cart, cart', userId, productId, amount)
    ensures nextId <= nextId' && forall id :: id in cart' ==> id < nextId'
  {
    if exists id :: id in cart && cart[id].userId == userId && cart[id].productId == Some(productId) {
      var id :| id in cart && cart[id].userId == userId && cart[id].productId == Some(productId);
      BumpRow(cart, id, userId, productId, amount);
      cart' := cart[id := cart[id].(quantity := Plus(cart[id].quantity, amount))];
      nextId' := nextId;
    } else {
      InsertRow(cart, nextId, userId, productId, amount);
      cart' := cart[nextId := CartRow(userId, Some(productId), Some(amount))];
      nextId' := nextId + 1;
    }
  }

  /** Changing or adding the row of one pair leaves every other pair's quantity alone. */
  lemma SameOtherRows(before: map<nat, CartRow>, after: map<nat, CartRow>, u: UserId, p: ProductId)
    requires forall id :: id in before && (before[id].userId, before[id].productId) == (u, Some(p)) ==> id in after && after[id] == before[id]
    requires forall id :: id in after && (after[id].userId, after[id].productId) == (u, Some(p)) ==> id in before && before[id] == after[id]
    requires UniquePairs(before) && UniquePairs(after)
    ensures QuantityOf(after, u, p) == QuantityOf(before, u, p)
  {
    if HasRow(before, u, p) {
      var id :| id in before && before[id].userId == u && before[id].productId == Some(p);
      QuantityOfRow(before, id);
      QuantityOfRow(after, id);
    }
  }

  /** The upsert's conflict branch: the existing row's quantity grows by `amount`. */
  lemma BumpRow(cart: map<nat, CartRow>, id: nat, userId: UserId, productId: ProductId, amount: int)
    requires UniquePairs(cart) && id in cart && cart[id].userId == userId && cart[id].productId == Some(productId)
    ensures Upserted(cart, cart[id := cart[id].(quantity := Plus(cart[id].quantity, amount))], userId, productId, amount)
  {
    var after := cart[id := cart[id].(quantity := Plus(cart[id].quantity, amount))];
    QuantityOfRow(cart, id);
    QuantityOfRow(after, id);
    forall u, p | (u, p) != (userId, productId)
      ensures QuantityOf(after, u, p) == QuantityOf(cart, u, p)
    {
      SameOtherRows(cart, after, u, p);
    }
  }

  /** The upsert's insert branch: a fresh row for a pair that had none. */
  lemma InsertRow(cart: map<nat, CartRow>, id: nat, userId: UserId, productId: ProductId, amount: int)
    requires UniquePairs(cart) && id !in cart && !HasRow(cart, userId, productId)
    ensures Upserted(cart, cart[id := CartRow(userId, Some(productId), Some(amount))], userId, productId, amount)
  {
    var after := cart[id := CartRow(userId, Some(productId), Some(amount))];
    QuantityOfRow(after, id);
    forall u, p | (u, p) != (userId, productId)
      ensures QuantityOf(after, u, p) == QuantityOf(cart, u, p)
    {
      SameOtherRows(cart, after, u, p);
    }
  }

  /** Three separate additions of one unit leave a single row holding 3. */
  method AddThreeTimes(products: set<ProductId>, userId: UserId, productId: ProductId) returns (t: UserTables)
    requires productId in products
    ensures fresh(t) && t.Valid()
    ensures QuantityOf(t.cart, userId, productId) == Some(3)
    ensures |t.cart| == 1
  {
    t := new UserTables();
    var s := t.AddToCart(products, userId, Some(productId), None);
    s := t.AddToCart(products, userId, Some(productId), Some(1));
    s := t.AddToCart(products, userId, Some(productId), None);
    OnlyPair(t.cart, userId, productId);
  }

  lemma OnlyPair(cart: map<nat, CartRow>, userId: UserId, productId: ProductId)
    requires UniquePairs(cart)
    requires forall id :: id in cart ==> cart[id].userId == userId && cart[id].productId == Some(productId)
    ensures |cart| <= 1
  {
    if cart != map[] {
      var id :| id in cart;
      assert cart.Keys == {id};
    }
  }
}

/** The cart controller. Every operation works on the caller's own cart.
    `getCart` and `addToCart` create the cart on first use; the others
    answer not-found when there is none. The stored `total` and `totalItems`
    are written only when a cart is created; the line operations change `items` alone. */
module Carts {
  import opened Domain
  import opened Store
  import CartLines

  /** `const { quantity = 1 } = req.body`: the default applies when the field is absent. */
  function RequestedQuantity(quantity: Option<int>): int
  {
    if quantity.Some? then quantity.value else 1
  }

  /** `getCart`: the caller's cart, created empty on first access. */
  method GetCart(db: Db, actor: Actor) returns (cart: Cart)
    modifies db`carts
    ensures actor.id in old(db.carts) ==> cart == old(db.carts)[actor.id] && unchanged(db)
    ensures actor.id !in old(db.carts) ==>
      && cart.items == [] && cart.total == 0 && cart.totalItems == 0 && cart.user == actor.id
      && db.carts == old(db.carts)[actor.id := cart]
    ensures old(db.Valid()) ==> db.Valid()
  {
    if actor.id in db.carts {
      cart := db.carts[actor.id];
    } else {
      cart := EmptyCart(actor.id);
      db.carts := db.carts[actor.id := cart];
    }
  }

  /** `addToCart`. The product must exist and its stock must cover the
      requested quantity (not the line's merged quantity); then the cart,
      created if need be, gets the addition merged into the product's line
      or appended as a new one, at the product's current price. */
  method AddToCart(db: Db, actor: Actor, productId: ProductId, quantity: Option<int>) returns (r: Result<Cart>)
    modifies db`carts
    ensures var q := RequestedQuantity(quantity);
      if productId !in db.products then r == Err(ProductNotFound) && unchanged(db)
      else if db.products[productId].stock < q then r == Err(InsufficientStock) && unchanged(db)
      else
        var before := if actor.id in old(db.carts) then old(db.carts)[actor.id] else EmptyCart(actor.id);
        && r == Ok(before.(items := CartLines.AddLine(before.items, productId, q, db.products[productId].price)))
        && db.carts == old(db.carts)[actor.id := r.value]
    ensures old(db.Valid()) ==> db.Valid()
  {
    ghost var wasValid := db.Valid();
    var q := RequestedQuantity(quantity);
    if productId !in db.products {
      return Err(ProductNotFound);
    }
    var product := db.products[productId];
    if product.stock < q {
      return Err(InsufficientStock);
    }
    var cart: Cart;
    if actor.id in db.carts {
      cart := db.carts[actor.id];
    } else {
      cart := EmptyCart(actor.id);
      db.carts := db.carts[actor.id := cart];
    }
    if wasValid {
      CartLines.AddLineKeepsUnique(cart.items, productId, q, product.price);
    }
    cart := cart.(items := CartLines.AddLine(cart.items, productId, q, product.price));
    db.carts := db.carts[actor.id := cart];
    r := Ok(cart);
  }

  /** `updateCartItem`. The checks run in this order: quantity at least 1,
      product exists, stock covers the quantity, cart exists, cart holds a line
      of the product. Then that line gets exactly the quantity and the
      product's current price. */
  method UpdateCartItem(db: Db, actor: Actor, productId: ProductId, quantity: int) returns (r: Result<Cart>)
    modifies db`carts
    ensures
      if quantity < 1 then r == Err(QuantityTooSmall) && unchanged(db)
      else if productId !in db.products then r == Err(ProductNotFound) && unchanged(db)
      else if db.products[productId].stock < quantity then r == Err(InsufficientStock) && unchanged(db)
      else if actor.id !in old(db.carts) then r == Err(CartNotFound) && unchanged(db)
      else if CartLines.FindLine(old(db.carts)[actor.id].items, productId).None? then r == Err(ItemNotFound) && unchanged(db)
      else
        var cart := old(db.carts)[actor.id];
        var k := CartLines.FindLine(cart.items, productId).value;
        && r == Ok(cart.(items := cart.items[k := CartLine(productId, quantity, db.products[productId].price)]))
        && db.carts == old(db.carts)[actor.id := r.value]
    ensures old(db.Valid()) ==> db.Valid()
  {
    if quantity < 1 {
      return Err(QuantityTooSmall);
    }
    if productId !in db.products {
      return Err(ProductNotFound);
    }
    var product := db.products[productId];
    if product.stock < quantity {
      return Err(InsufficientStock);
    }
    if actor.id !in db.carts {
      return Err(CartNotFound);
    }
    var cart := db.carts[actor.id];
    var found := CartLines.FindLine(cart.items, productId);
    if found.None? {
      return Err(ItemNotFound);
    }
    var k := found.value;
    cart := cart.(items := cart.items[k := cart.items[k].(quantity := quantity, price := product.price)]);
    db.carts := db.carts[actor.id := cart];
    r := Ok(cart);
  }

  /** `removeFromCart`: drops every line of the product, keeping the others in order. */
  method RemoveFromCart(db: Db, actor: Actor, productId: ProductId) returns (r: Result<Cart>)
    modifies db`carts
    ensures actor.id !in old(db.carts) ==> r == Err(CartNotFound) && unchanged(db)
    ensures actor.id in old(db.carts) ==>
      var cart := old(db.carts)[actor.id];
      && r == Ok(cart.(items := CartLines.RemoveLines(cart.items, productId)))
      && db.carts == old(db.carts)[actor.id := r.value]
    ensures old(db.Valid()) ==> db.Valid()
  {
    if actor.id !in db.carts {
      return Err(CartNotFound);
    }
    var cart := db.carts[actor.id];
    CartLines.RemoveLinesEffect(cart.items, productId);
    cart := cart.(items := CartLines.RemoveLines(cart.items, productId));
    db.carts := db.carts[actor.id := cart];
    r := Ok(cart);
  }

  /** `clearCart`: the cart stays, with no lines. */
  method ClearCart(db: Db, actor: Actor) returns (r: Result<Cart>)
    modifies db`carts
    ensures actor.id !in old(db.carts) ==> r == Err(CartNotFound) && unchanged(db)
    ensures actor.id in old(db.carts) ==>
      && r == Ok(old(db.carts)[actor.id].(items := []))
      && db.carts == old(db.carts)[actor.id := r.value]
    ensures old(db.Valid()) ==> db.Valid()
  {
    if actor.id !in db.carts {
      return Err(CartNotFound);
    }
    var cart := db.carts[actor.id].(items := []);
    db.carts := db.carts[actor.id := cart];
    r := Ok(cart);
  }

  /** `getCartCount`: the stored `totalItems` of the caller's cart, or 0 without one. */
  method GetCartCount(db: Db, actor: Actor) returns (count: int)
    ensures actor.id !in db.carts ==> count == 0
    ensures actor.id in db.carts ==> count == db.carts[actor.id].totalItems
  {
    if actor.id !in db.carts {
      return 0;
    }
    count := db.carts[actor.id].totalItems;
  }
}

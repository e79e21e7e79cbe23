/** The order controller: placing an order (which takes the ordered units
    off stock and empties the caller's cart), marking it paid or delivered,
    overwriting its status, cancelling it, and the admin listing's pages.
    Administrator-only routes are guarded by middleware outside this model;
    the operations themselves do not look at the caller unless noted. */
module Orders {
  import opened Domain
  import opened Store
  import Stock
  import Pagination
  import ProductRules

  const OrdersPageSize: nat := 10

  /** `createOrder`. The order is stored first, then each ordered unit is
      taken off its product's stock (a missing product is skipped, nothing
      checks availability), then the caller's cart, if it has one, is emptied.
      `id` is the fresh identifier the database gives the new order. */
  method CreateOrder(db: Db, actor: Actor, id: OrderId, orderItems: seq<OrderItem>,
                     shippingAddress: Address, paymentMethod: string,
                     itemsPrice: int, taxPrice: int, shippingPrice: int, totalPrice: int,
                     now: int)
    returns (r: Result<Order>)
    requires id !in db.orders
    modifies db
    ensures |orderItems| == 0 ==> r == Err(NoOrderItems) && unchanged(db)
    ensures |orderItems| > 0 ==>
      && r == Ok(Order(actor.id, orderItems, shippingAddress, paymentMethod,
                       itemsPrice, taxPrice, shippingPrice, totalPrice,
                       Pending, false, None, None, false, None, None, None, now))
      && db.orders == old(db.orders)[id := r.value]
      && db.products == Stock.Reserve(old(db.products), orderItems)
    ensures |orderItems| > 0 ==>
      && db.products.Keys == old(db.products).Keys
      && forall pid :: pid in old(db.products) ==>
           db.products[pid] == old(db.products)[pid].(stock := old(db.products)[pid].stock - Stock.Ordered(orderItems, pid))
    ensures |orderItems| > 0 ==>
      && db.carts.Keys == old(db.carts).Keys
      && (actor.id in db.carts ==> db.carts[actor.id] == old(db.carts)[actor.id].(items := [], total := 0, totalItems := 0))
      && (forall u :: u in db.carts && u != actor.id ==> db.carts[u] == old(db.carts)[u])
    ensures old(db.Valid()) ==> db.Valid()
  {
    if |orderItems| == 0 {
      return Err(NoOrderItems);
    }
    var order := Order(actor.id, orderItems, shippingAddress, paymentMethod,
                       itemsPrice, taxPrice, shippingPrice, totalPrice,
                       Pending, false, None, None, false, None, None, None, now);
    db.orders := db.orders[id := order];
    TakeOffStock(db, orderItems);
    Stock.ReserveEffect(old(db.products), orderItems);
    if old(db.Valid()) {
      StockChangeKeepsReviews(old(db.products), orderItems);
    }

    if actor.id in db.carts {
      db.carts := db.carts[actor.id := db.carts[actor.id].(items := [], total := 0, totalItems := 0)];
    }
    r := Ok(order);
  }

  /** The stock loop of `createOrder`: take each item's units off its product, in order. */
  method TakeOffStock(db: Db, items: seq<OrderItem>)
    modifies db`products
    ensures db.products == Stock.Reserve(old(db.products), items)
  {
    for i := 0 to |items|
      invariant db.products == Stock.Reserve(old(db.products), items[..i])
    {
      var item := items[i];
      if item.product in db.products {
        var product := db.products[item.product];
        db.products := db.products[item.product := product.(stock := product.stock - item.quantity)];
      }
      assert items[..i + 1][..i] == items[..i];
    }
    assert items[..|items|] == items;
  }

  /** Taking stock off keeps every product's reviews consistent. */
  lemma StockChangeKeepsReviews(products: Stock.Products, items: seq<OrderItem>)
    requires ProductsValid(products)
    ensures ProductsValid(Stock.Reserve(products, items))
  {
    Stock.ReserveEffect(products, items);
    var after := Stock.Reserve(products, items);
    forall id | id in after
      ensures ProductRules.ReviewsConsistent(after[id])
    {
      assert after[id].reviews == products[id].reviews && after[id].numReviews == products[id].numReviews;
    }
  }

  /** `updateOrderToPaid`. `payerEmail` is `req.body.payer.email_address`;
      without a `payer` the handler throws before saving and answers 500. */
  method UpdateOrderToPaid(db: Db, id: OrderId, paymentId: string, paymentStatus: string,
                           updateTime: string, payerEmail: Option<string>, now: int)
    returns (r: Result<Order>)
    modifies db`orders
    ensures id !in old(db.orders) ==> r == Err(OrderNotFound) && unchanged(db)
    ensures id in old(db.orders) && payerEmail.None? ==> r == Err(ServerError) && unchanged(db)
    ensures id in old(db.orders) && payerEmail.Some? ==>
      && r == Ok(old(db.orders)[id].(isPaid := true, paidAt := Some(now),
                   paymentResult := Some(PaymentResult(paymentId, paymentStatus, updateTime, payerEmail.value))))
      && db.orders == old(db.orders)[id := r.value]
  {
    if id !in db.orders {
      return Err(OrderNotFound);
    }
    if payerEmail.None? {
      return Err(ServerError);
    }
    var order := db.orders[id];
    order := order.(isPaid := true, paidAt := Some(now),
                    paymentResult := Some(PaymentResult(paymentId, paymentStatus, updateTime, payerEmail.value)));
    db.orders := db.orders[id := order];
    r := Ok(order);
  }

  /** `updateOrderToDelivered`: sets the delivered flag and time whatever the payment flag or the status. */
  method UpdateOrderToDelivered(db: Db, id: OrderId, now: int) returns (r: Result<Order>)
    modifies db`orders
    ensures id !in old(db.orders) ==> r == Err(OrderNotFound) && unchanged(db)
    ensures id in old(db.orders) ==>
      && r == Ok(old(db.orders)[id].(isDelivered := true, deliveredAt := Some(now)))
      && db.orders == old(db.orders)[id := r.value]
  {
    if id !in db.orders {
      return Err(OrderNotFound);
    }
    var order := db.orders[id].(isDelivered := true, deliveredAt := Some(now));
    db.orders := db.orders[id := order];
    r := Ok(order);
  }

  /** `updateOrderStatus`: any status may follow any status; the tracking
      number and the notes are replaced only by truthy values. */
  method UpdateOrderStatus(db: Db, id: OrderId, status: Status,
                           trackingNumber: Option<string>, notes: Option<string>)
    returns (r: Result<Order>)
    modifies db`orders
    ensures id !in old(db.orders) ==> r == Err(OrderNotFound) && unchanged(db)
    ensures id in old(db.orders) ==>
      var o := old(db.orders)[id];
      && r == Ok(o.(status := status,
                    trackingNumber := if Truthy(trackingNumber) then trackingNumber else o.trackingNumber,
                    notes := if Truthy(notes) then notes else o.notes))
      && db.orders == old(db.orders)[id := r.value]
  {
    if id !in db.orders {
      return Err(OrderNotFound);
    }
    var order := db.orders[id];
    order := order.(status := status);
    if Truthy(trackingNumber) {
      order := order.(trackingNumber := trackingNumber);
    }
    if Truthy(notes) {
      order := order.(notes := notes);
    }
    db.orders := db.orders[id := order];
    r := Ok(order);
  }

  /** The stock the restock branch of `cancelOrder` leaves: the order's units
      are put back when the status it tests is `processing`. */
  function Restocked(products: Stock.Products, items: seq<OrderItem>, tested: Status): Stock.Products
  {
    if tested == Processing then Stock.Release(products, items) else products
  }

  /** The restock branch: `if (status === 'processing')`, put each item's units back. */
  method RestockIfProcessing(db: Db, items: seq<OrderItem>, tested: Status)
    modifies db`products
    ensures db.products == Restocked(old(db.products), items, tested)
  {
    if tested == Processing {
      for i := 0 to |items|
        invariant db.products == Stock.Release(old(db.products), items[..i])
      {
        var item := items[i];
        if item.product in db.products {
          var product := db.products[item.product];
          db.products := db.products[item.product := product.(stock := product.stock + item.quantity)];
        }
        assert items[..i + 1][..i] == items[..i];
      }
      assert items[..|items|] == items;
    }
  }

  /** Whether the caller may cancel: the owner, or an administrator. */
  predicate MayCancel(order: Order, actor: Actor)
  {
    order.user == actor.id || actor.role == Admin
  }

  /** Whether the status still allows cancelling. */
  predicate Cancellable(status: Status)
  {
    status == Pending || status == Processing
  }

  /** `cancelOrder` as written. The restock test runs after the status has
      been set to `cancelled`, so it never restocks anything. */
  method CancelOrder(db: Db, actor: Actor, id: OrderId) returns (r: Result<Order>)
    modifies db`orders, db`products
    ensures id !in old(db.orders) ==> r == Err(OrderNotFound) && unchanged(db)
    ensures id in old(db.orders) && !MayCancel(old(db.orders)[id], actor) ==>
      r == Err(NotAuthorized) && unchanged(db)
    ensures id in old(db.orders) && MayCancel(old(db.orders)[id], actor) && !Cancellable(old(db.orders)[id].status) ==>
      r == Err(NotCancellable) && unchanged(db)
    ensures id in old(db.orders) && MayCancel(old(db.orders)[id], actor) && Cancellable(old(db.orders)[id].status) ==>
      && r == Ok(old(db.orders)[id].(status := Cancelled))
      && db.orders == old(db.orders)[id := r.value]
      && db.products == old(db.products)
    ensures old(db.Valid()) ==> db.Valid()
  {
    if id !in db.orders {
      return Err(OrderNotFound);
    }
    var order := db.orders[id];
    if !MayCancel(order, actor) {
      return Err(NotAuthorized);
    }
    if !Cancellable(order.status) {
      return Err(NotCancellable);
    }
    order := order.(status := Cancelled);
    RestockIfProcessing(db, order.orderItems, order.status);
    db.orders := db.orders[id := order];
    r := Ok(order);
  }

  /** `cancelOrder` with the restock test reading the status the order had
      before it was cancelled, as the comment above the branch intends: a
      processing order gives its units back to stock. */
  method CancelOrderRestoring(db: Db, actor: Actor, id: OrderId) returns (r: Result<Order>)
    modifies db`orders, db`products
    ensures id !in old(db.orders) ==> r == Err(OrderNotFound) && unchanged(db)
    ensures id in old(db.orders) && !MayCancel(old(db.orders)[id], actor) ==>
      r == Err(NotAuthorized) && unchanged(db)
    ensures id in old(db.orders) && MayCancel(old(db.orders)[id], actor) && !Cancellable(old(db.orders)[id].status) ==>
      r == Err(NotCancellable) && unchanged(db)
    ensures id in old(db.orders) && MayCancel(old(db.orders)[id], actor) && Cancellable(old(db.orders)[id].status) ==>
      var o := old(db.orders)[id];
      && r == Ok(o.(status := Cancelled))
      && db.orders == old(db.orders)[id := r.value]
      && db.products == (if o.status == Processing then Stock.Release(old(db.products), o.orderItems) else old(db.products))
    ensures old(db.Valid()) ==> db.Valid()
  {
    if id !in db.orders {
      return Err(OrderNotFound);
    }
    var order := db.orders[id];
    if !MayCancel(order, actor) {
      return Err(NotAuthorized);
    }
    if !Cancellable(order.status) {
      return Err(NotCancellable);
    }
    var before := order.status;
    order := order.(status := Cancelled);
    RestockIfProcessing(db, order.orderItems, before);
    Stock.ReleaseEffect(old(db.products), order.orderItems);
    db.orders := db.orders[id := order];
    r := Ok(order);
  }

  /** As written, the status the restock test reads is the one just
      assigned, so no cancellation restocks; reading the status from before
      would restock every processing order. */
  lemma {:induction false} RestockTestReadsCancelled(products: Stock.Products, o: Order)
    ensures Restocked(products, o.orderItems, o.(status := Cancelled).status) == products
    ensures o.status == Processing ==>
      Restocked(products, o.orderItems, o.status) == Stock.Release(products, o.orderItems)
  {
  }

  /** The input that shows the lost restock: a processing order for 2 units of
      a product with 5 in stock. As written the stock stays 5; restocking on the
      status from before gives 7. */
  lemma {:induction false} LostRestockExample(p: Product, o: Order)
    requires p.stock == 5
    requires o.status == Processing && o.orderItems == [OrderItem("p", 2, 100)]
    ensures var products := map["p" := p];
      var asWritten := Restocked(products, o.orderItems, o.(status := Cancelled).status);
      var intended := Restocked(products, o.orderItems, o.status);
      && "p" in asWritten && asWritten["p"].stock == 5
      && "p" in intended && intended["p"].stock == 7
  {
    var products := map["p" := p];
    Stock.ReleaseEffect(products, o.orderItems);
    Stock.OrderedSingle(OrderItem("p", 2, 100), "p");
  }

  /** Placing an order and cancelling it while it is processing, with the
      restock reading the status from before, gives the stock back exactly. */
  lemma {:induction false} CancelAfterCreateRestoresStock(products: Stock.Products, o: Order)
    requires o.status == Processing
    ensures Restocked(Stock.Reserve(products, o.orderItems), o.orderItems, o.status) == products
  {
    Stock.ReleaseUndoesReserve(products, o.orderItems);
  }

  /** `getOrders`: ten orders per page out of all orders, in the listing's order. */
  function OrdersPage(orders: seq<Order>, pageNumber: Option<int>): (r: Result<Pagination.Page<Order>>)
    ensures r.Ok? <==> Pagination.PageNumber(pageNumber) >= 1
    ensures r.Ok? ==> |r.value.items| <= OrdersPageSize && r.value.total == |orders|
    ensures r.Ok? ==> forall i :: 0 <= i < |r.value.items| ==> r.value.items[i] in orders
    ensures r.Ok? ==>
      && r.value.page == Pagination.PageNumber(pageNumber)
      && r.value.items == Pagination.Slice(orders, OrdersPageSize * (r.value.page - 1), OrdersPageSize)
      && r.value.pages == Pagination.PageCount(|orders|, OrdersPageSize)
  {
    Pagination.Paginate(orders, OrdersPageSize, pageNumber)
  }
}

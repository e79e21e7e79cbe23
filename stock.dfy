/** The stock bookkeeping of the order workflow: the per-item walk of
    `createOrder` that takes each ordered quantity off the product's stock,
    and the walk that puts it back. A line whose product does not exist is
    skipped. Nothing checks availability, so stock may go below zero. */
module Stock {
  import opened Domain

  type Products = map<ProductId, Product>

  /** The units of the product summed over the ordered items. */
  function Ordered(items: seq<OrderItem>, productId: ProductId): int
  {
    if |items| == 0 then 0
    else
      var last := items[|items| - 1];
      Ordered(items[..|items| - 1], productId) + (if last.product == productId then last.quantity else 0)
  }

  /** Adds `delta` to the stock of the product when it exists. */
  function Adjust(products: Products, productId: ProductId, delta: int): Products
  {
    if productId in products then
      products[productId := products[productId].(stock := products[productId].stock + delta)]
    else products
  }

  /** The stock after the items have been taken off one by one, in order. */
  function Reserve(products: Products, items: seq<OrderItem>): Products
  {
    if |items| == 0 then products
    else
      var last := items[|items| - 1];
      Adjust(Reserve(products, items[..|items| - 1]), last.product, -last.quantity)
  }

  /** The stock after the items have been put back one by one, in order. */
  function Release(products: Products, items: seq<OrderItem>): Products
  {
    if |items| == 0 then products
    else
      var last := items[|items| - 1];
      Adjust(Release(products, items[..|items| - 1]), last.product, last.quantity)
  }

  /** Reserving keeps the set of products. */
  lemma {:induction false} ReserveKeys(products: Products, items: seq<OrderItem>)
    ensures Reserve(products, items).Keys == products.Keys
  {
    if |items| > 0 {
      ReserveKeys(products, items[..|items| - 1]);
    }
  }

  /** Reserving takes exactly the ordered units off one existing product. */
  lemma {:induction false} ReserveAt(products: Products, items: seq<OrderItem>, productId: ProductId)
    requires productId in products
    ensures productId in Reserve(products, items)
    ensures Reserve(products, items)[productId]
      == products[productId].(stock := products[productId].stock - Ordered(items, productId))
  {
    if |items| > 0 {
      ReserveAt(products, items[..|items| - 1], productId);
    }
  }

  /** Reserving keeps the set of products and every field but `stock`, and
      takes exactly the ordered units off each existing product's stock. */
  lemma {:induction false} ReserveEffect(products: Products, items: seq<OrderItem>)
    ensures Reserve(products, items).Keys == products.Keys
    ensures forall productId :: productId in products ==>
      Reserve(products, items)[productId]
        == products[productId].(stock := products[productId].stock - Ordered(items, productId))
  {
    ReserveKeys(products, items);
    forall productId | productId in products
      ensures Reserve(products, items)[productId]
        == products[productId].(stock := products[productId].stock - Ordered(items, productId))
    {
      ReserveAt(products, items, productId);
    }
  }

  /** Releasing keeps the set of products. */
  lemma {:induction false} ReleaseKeys(products: Products, items: seq<OrderItem>)
    ensures Release(products, items).Keys == products.Keys
  {
    if |items| > 0 {
      ReleaseKeys(products, items[..|items| - 1]);
    }
  }

  /** Releasing adds exactly the ordered units back to one existing product. */
  lemma {:induction false} ReleaseAt(products: Products, items: seq<OrderItem>, productId: ProductId)
    requires productId in products
    ensures productId in Release(products, items)
    ensures Release(products, items)[productId]
      == products[productId].(stock := products[productId].stock + Ordered(items, productId))
  {
    if |items| > 0 {
      ReleaseAt(products, items[..|items| - 1], productId);
    }
  }

  /** Releasing keeps the set of products and every field but `stock`, and
      adds exactly the ordered units back to each existing product's stock. */
  lemma {:induction false} ReleaseEffect(products: Products, items: seq<OrderItem>)
    ensures Release(products, items).Keys == products.Keys
    ensures forall productId :: productId in products ==>
      Release(products, items)[productId]
        == products[productId].(stock := products[productId].stock + Ordered(items, productId))
  {
    ReleaseKeys(products, items);
    forall productId | productId in products
      ensures Release(products, items)[productId]
        == products[productId].(stock := products[productId].stock + Ordered(items, productId))
    {
      ReleaseAt(products, items, productId);
    }
  }

  /** Putting an order's items back after taking them restores the stock exactly. */
  lemma {:induction false} ReleaseUndoesReserve(products: Products, items: seq<OrderItem>)
    ensures Release(Reserve(products, items), items) == products
  {
    var reserved := Reserve(products, items);
    ReserveEffect(products, items);
    ReleaseEffect(reserved, items);
    var restored := Release(reserved, items);
    forall productId | productId in products
      ensures restored[productId] == products[productId]
    {
      assert restored[productId].stock == products[productId].stock;
    }
  }

  /** A single ordered line: the product's stock drops by its quantity alone. */
  lemma {:induction false} OrderedSingle(item: OrderItem, productId: ProductId)
    ensures Ordered([item], productId) == if item.product == productId then item.quantity else 0
  {
    assert [item][..0] == [];
  }

  /** There is no availability check: ordering 3 units of a product with 2 in stock leaves -1. */
  lemma {:induction false} ReserveMayOversell(p: Product)
    requires p.stock == 2
    ensures var after := Reserve(map["p" := p], [OrderItem("p", 3, 100)]);
      "p" in after && after["p"].stock == -1
  {
    ReserveEffect(map["p" := p], [OrderItem("p", 3, 100)]);
    OrderedSingle(OrderItem("p", 3, 100), "p");
  }
}

/** The database the controllers work on: products, carts by owner and
    orders, each collection a map from the document's identifier. */
module Store {
  import opened Domain
  import CartLines
  import ProductRules

  class Db {
    var products: map<ProductId, Product>
    var carts: map<UserId, Cart>
    var orders: map<OrderId, Order>

    constructor ()
      ensures products == map[] && carts == map[] && orders == map[]
      ensures Valid()
    {
      products, carts, orders := map[], map[], map[];
    }

    /** What the operations keep true: each cart is stored under its owner and
        holds at most one line per product; each product holds at most one
        review per user and counts its reviews in `numReviews`. */
    ghost predicate Valid()
      reads this
    {
      CartsValid(carts) && ProductsValid(products)
    }
  }

  /** Each cart is stored under its owner and holds at most one line per product. */
  ghost predicate CartsValid(carts: map<UserId, Cart>)
  {
    forall u :: u in carts ==> carts[u].user == u && CartLines.LinesUnique(carts[u].items)
  }

  /** Each product holds at most one review per user and counts them in `numReviews`. */
  ghost predicate ProductsValid(products: map<ProductId, Product>)
  {
    forall id :: id in products ==> ProductRules.ReviewsConsistent(products[id])
  }
}

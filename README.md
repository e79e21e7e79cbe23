# Storefront order, stock and cart workflow in Dafny

This project models the order, stock and cart workflow of a storefront
backend (an Express/Mongoose shop). It covers the order controller, the cart
controller and the product-side rules that feed it. The classes and functions are:

- `Store.Db`: one class holding the three stored collections. `products`, `carts`
  and `orders` are maps from identifiers to records. `Db.Valid()` is the
  invariant the operations keep:
  - every cart is stored under its owner and holds at most one line per product;
  - every product has one review per user, and `numReviews` counts them.
- `Orders` (`orderController.js`):
  - placing an order, which takes the ordered units off stock and empties the caller's cart;
  - marking an order paid or delivered;
  - overwriting its status;
  - cancelling it;
  - the admin listing's pages.
- `Carts` (`cartController.js`): reading the cart, adding, updating and removing a
  line, clearing the cart, and the item count.
- `Catalog` (`productController.js`):
  - the listing with its active filter and twelve-per-page pages;
  - the six featured products;
  - the brand list without falsy brands;
  - product updates;
  - reviews.
- Value-level modules that carry most of the proofs:
  - `Pagination`: the `Number(pageNumber) || 1` fallback, `skip`/`limit` and `Math.ceil`.
  - `CartLines`: the line list of a cart.
  - `Stock`: taking an order's units off stock and putting them back.
  - `ProductRules`: the `||` and `!== undefined` merge of `updateProduct`, and the review average.
  - `Seqs`: filtering and de-duplicating sequences.

Each controller action that changes stored state is a method that takes the
`Db` and modifies it. Its postcondition states the complete new state and every error answer. A
method keeps `Db.Valid()` when it held before. A method that walks a list
(the stock updates of `createOrder` and `cancelOrder`) is a loop proved
against a recursive specification function. The lemmas beside that function state
what the walk achieves.

Identifiers, the current time and the authenticated user are parameters:
`id`, `now` and `actor`. HTTP status codes become the `Error` values of
`Domain`, and an exception that ends in a 500 answer becomes `ServerError`.
Prices, weights and quantities are integers (minor units). The average
rating is a Dafny `real`.

In these places the code is more permissive than a stricter workflow would be. The model follows the code in each:

- `createOrder` skips a product that does not exist; a stricter workflow would refuse the order.
- Nothing checks that stock is available, so stock can go below zero.
- A caller who may not cancel gets 401 (unauthenticated) rather than 403 (forbidden).
- `updateCartItem` also checks the product, its stock and the cart before it looks for the line.
- The cart line operations do not recompute the stored `total` and `totalItems`.

## Model

| member | source | states |
|---|---|---|
| Pagination.PageNumber | ecommerce-backend/controllers/productController.js:9 | the page is the requested number when that is a non-zero number, else 1; it is never 0 |
| Pagination.PageCount | ecommerce-backend/controllers/productController.js:59 | `Math.ceil(count / pageSize)`: the fewest pages of `pageSize` that hold `count` items |
| Pagination.Slice | ecommerce-backend/controllers/productController.js:52-53 | `skip(n).limit(k)`: at most `k` items, the i-th being item `n + i`, short only at the end of the list |
| Pagination.Paginate | ecommerce-backend/controllers/productController.js:52-60 | a page is answered iff the page number is at least 1 (a negative skip is a server error); it reports the page, the total, the page count and the slice at `pageSize * (page - 1)` |
| Pagination.FirstPagesArePrefix | ecommerce-backend/controllers/productController.js:52-53 | the first `k` pages put together are the first `pageSize * k` items of the listing |
| Pagination.PagesCoverAll | ecommerce-backend/controllers/productController.js:52-59 | pages 1 to `pages` put together are exactly the whole listing, in order |
| Pagination.PageNonEmptyIff | ecommerce-backend/controllers/productController.js:52-59 | a page is non-empty iff its number is at most the reported page count |
| Seqs.Filter | projects/Ecommerce-Web/ecommerce-backend/controllers/cartController.js:142-144 | `Array.filter`: no longer than the input, and every element it returns satisfies the test |
| Seqs.FilterMembers | projects/Ecommerce-Web/ecommerce-backend/controllers/cartController.js:142-144 | a value is in the filtered sequence iff it is in the input and satisfies the test |
| Seqs.FilterKeepsDistinct | ecommerce-backend/controllers/productController.js:243 | filtering a sequence without repeats gives one without repeats |
| Seqs.FilterConcat | projects/Ecommerce-Web/ecommerce-backend/controllers/cartController.js:142-144 | filtering keeps the order: filtering a concatenation is concatenating the filtered parts |
| Seqs.Distinct | ecommerce-backend/controllers/productController.js:242 | `distinct`: the same values, each once |
| CartLines.FindLine | projects/Ecommerce-Web/ecommerce-backend/controllers/cartController.js:55-57 | `items.find` by product: the first line of the product, or none iff no line has it |
| CartLines.AddLineQuantity | projects/Ecommerce-Web/ecommerce-backend/controllers/cartController.js:59-70 | adding raises the product's quantity in the cart by exactly the added quantity and leaves every other product's quantity alone |
| CartLines.AddLineKeepsUnique | projects/Ecommerce-Web/ecommerce-backend/controllers/cartController.js:55-70 | adding keeps one line per product; the cart gains a line only when the product had none |
| CartLines.AddLineMergesInto | projects/Ecommerce-Web/ecommerce-backend/controllers/cartController.js:59-62 | an existing line gets the summed quantity and the current price, all other lines unchanged |
| CartLines.AddTwiceMerges | projects/Ecommerce-Web/ecommerce-backend/controllers/cartController.js:55-70 | adding `a` then `b` of a new product leaves one line of `a + b` at the later price |
| CartLines.MergedLineMayExceedStock | projects/Ecommerce-Web/ecommerce-backend/controllers/cartController.js:39-61 | the stock check covers only the added quantity: with 5 in stock and 4 in the cart, adding 3 passes and leaves a line of 7 |
| CartLines.RemoveLinesEffect | projects/Ecommerce-Web/ecommerce-backend/controllers/cartController.js:142-144 | removal leaves no line of the product and keeps every other line, and nothing else |
| CartLines.RemoveKeepsUnique | projects/Ecommerce-Web/ecommerce-backend/controllers/cartController.js:142-144 | removal keeps one line per product |
| CartLines.RemoveLinesIdempotent | projects/Ecommerce-Web/ecommerce-backend/controllers/cartController.js:142-144 | removing the same product twice is removing it once |
| CartLines.RemoveLinesQuantity | projects/Ecommerce-Web/ecommerce-backend/controllers/cartController.js:142-144 | after removal the product's quantity is 0 and every other product's quantity is unchanged |
| CartLines.TotalItemsAddLine | projects/Ecommerce-Web/ecommerce-backend/controllers/cartController.js:59-70 | the sum of the line quantities rises by exactly the added quantity |
| CartLines.TotalItemsAfterUpdate | projects/Ecommerce-Web/ecommerce-backend/controllers/cartController.js:117 | setting a line's quantity changes the sum of quantities by the difference |
| Stock.ReserveEffect | projects/Ecommerce-Web/ecommerce-backend/controllers/orderController.js:40-46 | the order's walk over its items keeps the set of products and each one's other fields, and takes exactly the ordered units of each existing product off its stock |
| Stock.ReleaseEffect | projects/Ecommerce-Web/ecommerce-backend/controllers/orderController.js:218-224 | the restock walk adds exactly the ordered units of each existing product back to its stock |
| Stock.ReleaseUndoesReserve | projects/Ecommerce-Web/ecommerce-backend/controllers/orderController.js:40-46 | putting an order's items back after taking them restores the products exactly |
| Stock.ReserveMayOversell | projects/Ecommerce-Web/ecommerce-backend/controllers/orderController.js:42-43 | ordering 3 units of a product with 2 in stock leaves a stock of -1 |
| ProductRules.MergeSetsWhenSupplied | ecommerce-backend/controllers/productController.js:142-153 | `stock`, `discount`, `isActive` and `isFeatured` take any supplied value, 0 and false included, and are kept otherwise; so do `images`, `features`, `tags`, `dimensions` and `shippingInfo`, whose `\|\|` accepts any present array or object |
| ProductRules.MergeSetsOnlyTruthy | ecommerce-backend/controllers/productController.js:137-150 | the string and number `\|\|` fields (name, price, description, category, brand, sku, weight, discountEndDate) change only to a supplied non-empty or non-zero value, and always to one when it is supplied; a price of 0 is ignored |
| ProductRules.MergeNeverZeroesPrice | ecommerce-backend/controllers/productController.js:138 | a non-zero price stays non-zero whatever the update |
| ProductRules.MergeLaws | ecommerce-backend/controllers/productController.js:137-153 | an empty update changes nothing, an update applied twice is applied once, reviews, their count and the rating are kept |
| ProductRules.SumRatingsAppend | ecommerce-backend/controllers/productController.js:211-212 | appending a review adds its rating to the sum of ratings |
| ProductRules.AverageWithinBounds | ecommerce-backend/controllers/productController.js:211-213 | when every rating lies in `[lo, hi]` the stored average does too |
| ProductRules.AddReviewKeepsUnique | ecommerce-backend/controllers/productController.js:193-209 | a review by a user without one keeps one review per user |
| ProductRules.AverageAfterReview | ecommerce-backend/controllers/productController.js:209-213 | after the append the rating is (old sum + new rating) / (old count + 1) |
| Orders.CreateOrder | projects/Ecommerce-Web/ecommerce-backend/controllers/orderController.js:20-52 | no items: 400 and nothing changes; otherwise the stored pending, unpaid, undelivered order, every existing product's stock lowered by its ordered units, the caller's cart (if any) emptied with zero totals, all other carts kept, the invariant kept |
| Orders.UpdateOrderToPaid | projects/Ecommerce-Web/ecommerce-backend/controllers/orderController.js:84-99 | unknown order: 404; no payer: 500 and nothing saved; otherwise paid now with the payment result, nothing else changed |
| Orders.UpdateOrderToDelivered | projects/Ecommerce-Web/ecommerce-backend/controllers/orderController.js:111-120 | unknown order: 404; otherwise delivered now, whatever the payment flag and status |
| Orders.UpdateOrderStatus | projects/Ecommerce-Web/ecommerce-backend/controllers/orderController.js:176-186 | unknown order: 404; otherwise any new status, tracking number and notes replaced only by truthy values |
| Orders.TakeOffStock | projects/Ecommerce-Web/ecommerce-backend/controllers/orderController.js:40-46 | the loop leaves the products as the item-by-item reservation does: each existing product loses its ordered units |
| Orders.RestockIfProcessing | projects/Ecommerce-Web/ecommerce-backend/controllers/orderController.js:217-225 | the loop puts each item's units back exactly when the tested status is processing |
| Orders.CancelOrder | projects/Ecommerce-Web/ecommerce-backend/controllers/orderController.js:198-228 | as written: 404, then 401 for a caller neither owner nor admin, then 400 unless pending or processing; otherwise cancelled with stock untouched |
| Orders.CancelOrderRestoring | projects/Ecommerce-Web/ecommerce-backend/controllers/orderController.js:209-225 | the same checks; a cancelled processing order gives its units back to stock, a pending one leaves stock alone |
| Orders.RestockTestReadsCancelled | projects/Ecommerce-Web/ecommerce-backend/controllers/orderController.js:214-217 | the restock step fed the status just set leaves the products unchanged; fed the earlier status of a processing order it releases the order's items (the observed behaviour itself is `Orders.CancelOrder`'s postcondition `db.products == old(db.products)`) |
| Orders.LostRestockExample | projects/Ecommerce-Web/ecommerce-backend/controllers/orderController.js:214-224 | a processing order of 2 units with 5 in stock: as written stock stays 5, intended 7 |
| Orders.CancelAfterCreateRestoresStock | projects/Ecommerce-Web/ecommerce-backend/controllers/orderController.js:216-224 | placing an order and cancelling it while processing, with the intended restock, restores the products exactly |
| Orders.OrdersPage | projects/Ecommerce-Web/ecommerce-backend/controllers/orderController.js:147-162 | ten orders per page out of all orders; page, page count, total and the slice as for the product listing |
| Carts.GetCart | projects/Ecommerce-Web/ecommerce-backend/controllers/cartController.js:9-20 | the stored cart unchanged, or a new empty cart with zero totals stored for the caller |
| Carts.AddToCart | projects/Ecommerce-Web/ecommerce-backend/controllers/cartController.js:31-75 | quantity defaults to 1; unknown product 404, stock below the requested quantity 400, both with nothing changed; otherwise the cart (created if need be) gets the line merged or appended at the current price; one line per product is kept |
| Carts.UpdateCartItem | projects/Ecommerce-Web/ecommerce-backend/controllers/cartController.js:89-123 | the errors in the code's order (quantity below 1, product, stock, cart, line), each with nothing changed; otherwise the first line of the product gets exactly the quantity and the current price |
| Carts.RemoveFromCart | projects/Ecommerce-Web/ecommerce-backend/controllers/cartController.js:136-149 | no cart: 404; otherwise every line of the product dropped, the rest kept in order |
| Carts.ClearCart | projects/Ecommerce-Web/ecommerce-backend/controllers/cartController.js:160-169 | no cart: 404; otherwise the cart kept with no lines |
| Carts.GetCartCount | projects/Ecommerce-Web/ecommerce-backend/controllers/cartController.js:180-186 | the stored `totalItems`, or 0 without a cart; nothing changes |
| Catalog.Listed | ecommerce-backend/controllers/productController.js:44-51 | the query before paging holds exactly the products that are active and match the filters |
| Catalog.GetProducts | ecommerce-backend/controllers/productController.js:35-60 | only active matching products, at most twelve, the slice of the filtered listing at `12 * (page - 1)`, with its total and page count |
| Catalog.FeaturedProducts | ecommerce-backend/controllers/productController.js:72-74 | the first six featured, active products of the listing (newest first under the query's sort), or all of them when there are fewer than six |
| Catalog.Brands | ecommerce-backend/controllers/productController.js:242-243 | each brand once; a value is listed iff it is non-empty and some product has it |
| Catalog.UpdateProduct | ecommerce-backend/controllers/productController.js:134-158 | unknown product: 404 with nothing changed; otherwise the product replaced by the merge, the invariant kept |
| Catalog.CreateProductReview | ecommerce-backend/controllers/productController.js:190-218 | unknown product 404, second review by the same user 400, each with nothing changed; otherwise the review appended, `numReviews` the count and `rating` the average, one review per user kept |

## Left out

- The payment controller, the routes, the authentication middleware, the models' files and the seed scripts are not part of this model.
- Administrator-only routes are guarded by that middleware. The model lets any caller reach `updateOrderToDelivered`, `updateOrderStatus`, `getOrders` and `updateProduct`.
- `getOrderById`, `getMyOrders`, `getProductById`, `createProduct`, `deleteProduct` and `getCategories` are single lookups or writes outside the workflow modelled here.
- Persistence is not modelled: the database round trips, `populate`, and failures part-way through a handler (a crash after the order is saved but before stock is updated). Concurrent requests are not modelled either.
- Query building is not modelled. The keyword, category, brand and price filters of `getProducts` become one predicate, `matches`. Each `sort` becomes the order of the input sequence, so a listing is the collection as the query returns it.
- Catalog.Brands: the order of the distinct values is the database's; its contract states distinctness and membership only.
- Floating point is not modelled. Prices, weights and ratings are integers, and the average rating is exact. `Number(rating)` giving `NaN` is not modelled.
- Request values of the wrong type are not modelled:
  - a string quantity, where `+=` would concatenate;
  - an undefined quantity in `updateCartItem`;
  - non-integer page numbers;
  - a `null` sent for a `!== undefined` field.
  `Number(pageNumber)` giving `NaN` or 0 is the same as an absent page number: 1.
- A request without `orderItems` is not modelled. The code then saves an order with no items and throws at the stock loop. Here `orderItems` is always a sequence.
- Identifiers are abstract strings. A malformed identifier makes `findById` throw a cast error, which the handlers answer with 500; the model answers not-found instead, and in `createOrder` it skips such an item where the code throws after the order has been saved. Cast failures are not modelled.
- A negative page number is a server error. This assumes the database refuses a negative `skip`.
- The Cart model's save hook is not part of this model. The stored `total` and `totalItems` are kept as the controllers write them. `CartLines.TotalItems` and `CartLines.Total` are the derived values.
- The Order and Product schemas are not part of this model. The order defaults are taken as documented: pending, unpaid, undelivered, no timestamps, no tracking number or notes. Schema validation is not modelled, for example an unknown status string or a negative stock refused at save.
- Orders.CreateOrder: the new order's identifier is a caller-given fresh key (`requires id !in db.orders`), standing in for the database's generated id.

## Findings

| source | as written | input that shows it | evidently intended | confidence | as-written member | corrected member |
|---|---|---|---|---|---|---|
| projects/Ecommerce-Web/ecommerce-backend/controllers/orderController.js:214-217 | the restock test reads `order.status` after it has been set to `cancelled`, so it is never true and no cancellation restocks | a processing order for 2 units of a product with 5 in stock: after cancelling, the stock is still 5 | test the status the order had before the cancellation, so a processing order's units return to stock (7) | not executed | Orders.CancelOrder (its postcondition `db.products == old(db.products)` on a successful cancel), Orders.LostRestockExample | Orders.CancelOrderRestoring, Orders.CancelAfterCreateRestoresStock |

/** The documents of the storefront backend (products, carts, orders) as values,
    and the failure answers the controllers give. Prices and money amounts are
    integers in minor units; identifiers are compared as strings, as the
    controllers do with `toString()`. */
module Domain {

  type ProductId = string
  type UserId = string
  type OrderId = string

  datatype Option<T> = None | Some(value: T)

  /** JavaScript truthiness of a request string: present and not empty. */
  predicate Truthy(s: Option<string>)
  {
    s.Some? && s.value != ""
  }

  /** The failure answers of the controllers. Each is one `res.status(..)` branch. */
  datatype Error =
    | NoOrderItems          // 400 'No order items'
    | OrderNotFound         // 404 'Order not found'
    | ProductNotFound       // 404 'Product not found'
    | CartNotFound          // 404 'Cart not found'
    | ItemNotFound          // 404 'Item not found in cart'
    | InsufficientStock     // 400 'Insufficient stock'
    | QuantityTooSmall      // 400 'Quantity must be at least 1'
    | NotAuthorized         // 401 'Not authorized'
    | NotCancellable        // 400 'Order cannot be cancelled at this stage'
    | AlreadyReviewed       // 400 'Product already reviewed'
    | ServerError           // 500: an exception caught by the handler

  datatype Result<T> = Ok(value: T) | Err(error: Error)

  /** The authenticated caller, as the authentication middleware hands it over. */
  datatype Role = Customer | Admin
  datatype Actor = Actor(id: UserId, name: string, role: Role)

  // ----- products -----

  datatype Dimensions = Dimensions(length: int, width: int, height: int)
  datatype ShippingInfo = ShippingInfo(weight: int, dimensions: string, freeShipping: bool)
  datatype Review = Review(name: string, rating: int, comment: string, user: UserId)

  datatype Product = Product(
    name: string,
    price: int,
    description: string,
    category: string,
    brand: string,
    stock: int,
    images: seq<string>,
    features: seq<string>,
    tags: seq<string>,
    sku: string,
    weight: int,
    dimensions: Dimensions,
    discount: int,
    discountEndDate: string,
    shippingInfo: ShippingInfo,
    isActive: bool,
    isFeatured: bool,
    reviews: seq<Review>,
    numReviews: int,
    rating: real)

  // ----- carts -----

  /** One cart line: the product, how many, and the price copied in when the line was last touched. */
  datatype CartLine = CartLine(product: ProductId, quantity: int, price: int)

  /** A user's cart. `total` and `totalItems` are the stored fields of the document. */
  datatype Cart = Cart(user: UserId, items: seq<CartLine>, total: int, totalItems: int)

  /** The cart document created on first access. */
  function EmptyCart(user: UserId): Cart
  {
    Cart(user, [], 0, 0)
  }

  // ----- orders -----

  datatype Status = Pending | Processing | Shipped | Delivered | Cancelled

  /** An ordered line as the client sends it: product, quantity and unit price. */
  datatype OrderItem = OrderItem(product: ProductId, quantity: int, price: int)

  /** The shipping address document, carried through unchanged. */
  type Address = string

  datatype PaymentResult = PaymentResult(id: string, status: string, updateTime: string, emailAddress: string)

  datatype Order = Order(
    user: UserId,
    orderItems: seq<OrderItem>,
    shippingAddress: Address,
    paymentMethod: string,
    itemsPrice: int,
    taxPrice: int,
    shippingPrice: int,
    totalPrice: int,
    status: Status,
    isPaid: bool,
    paidAt: Option<int>,
    paymentResult: Option<PaymentResult>,
    isDelivered: bool,
    deliveredAt: Option<int>,
    trackingNumber: Option<string>,
    notes: Option<string>,
    createdAt: int)
}

/**
 * Records shared by the storefront model: products, cart lines, orders,
 * order line snapshots, shipping addresses and the result unions returned
 * by the server actions (types/product.ts, types/cart.ts, types/order.ts).
 *
 * Identifiers the store generates (cart line, order and order item ids) are
 * natural numbers drawn from one store counter, which also stamps
 * `createdAt`; product and owner identifiers are opaque strings.
 */
module Types {

  datatype Option<+T> = None | Some(value: T)

  datatype Result<+T, +E> = Success(value: T) | Failure(error: E)

  type ProductId = string
  type OwnerId = string

  /** A product row; `category` is the raw column value (it may be null). */
  datatype Product = Product(
    id: ProductId,
    name: string,
    description: Option<string>,
    price: int,
    category: Option<string>,
    stockQuantity: int,
    isActive: bool,
    viewCount: Option<int>)

  /** A `cart_items` row. The quantity is an `int`: addToCart never checks a lower bound. */
  datatype CartLine = CartLine(
    id: nat,
    owner: OwnerId,
    productId: ProductId,
    quantity: int,
    createdAt: nat)

  /** A cart line joined with its product (CartItemWithProduct). */
  datatype CartItemWithProduct = CartItemWithProduct(
    id: nat,
    owner: OwnerId,
    productId: ProductId,
    quantity: int,
    createdAt: nat,
    product: Product)

  datatype ShippingAddress = ShippingAddress(
    recipient: string,
    phone: string,
    postalCode: string,
    address1: string,
    address2: Option<string>)

  datatype CreateOrderInput = CreateOrderInput(
    shippingAddress: ShippingAddress,
    orderNote: Option<string>)

  datatype OrderStatus = Pending | Confirmed | Shipped | Delivered | Cancelled

  /** An `orders` row (the order header). */
  datatype Order = Order(
    id: nat,
    owner: OwnerId,
    totalAmount: int,
    status: OrderStatus,
    shippingAddress: ShippingAddress,
    orderNote: Option<string>,
    createdAt: nat)

  /** An `order_items` row: a point-in-time snapshot of one cart line. */
  datatype OrderItem = OrderItem(
    id: nat,
    orderId: nat,
    productId: ProductId,
    productName: string,
    quantity: int,
    price: int,
    createdAt: nat)

  datatype OrderWithItems = OrderWithItems(order: Order, items: seq<OrderItem>)

  /** Why a cart action failed; one constructor per distinct message of actions/cart.ts. */
  datatype CartError =
    | Unauthenticated
    | ProductNotFound          // addToCart: product missing or its read failed
    | ProductInactive
    | CartLookupFailed         // addToCart: reading the existing line failed
    | InsufficientStock(stock: int)
    | QuantityUpdateFailed     // addToCart: merging into the existing line failed
    | AddFailed                // addToCart: the insert failed
    | RemoveFailed
    | InvalidQuantity
    | CartLineNotFound         // updateCartQuantity: no such line owned by the caller
    | ProductInfoNotFound      // updateCartQuantity: product missing or its read failed
    | QuantityChangeFailed     // updateCartQuantity: the update failed

  /** CartActionResult: success carries the line id for addToCart only. */
  datatype CartActionResult = CartOk(cartItemId: Option<nat>) | CartFail(error: CartError)

  /** Why the order-creation query threw. */
  datatype OrderError =
    | EmptyCart
    | OrderProductNotFound(name: string)
    | OrderProductInactive(name: string)
    | OrderInsufficientStock(name: string, stock: int)
    | OrderInsertFailed
    | OrderItemsInsertFailed
    | StockDecrementFailed

  /** Why the createOrder server action failed. */
  datatype OrderFailure =
    | NotSignedIn
    | MissingShippingInfo
    | InvalidPhone
    | InvalidPostalCode
    | CartReadFailed
    | CartEmpty
    | QueryFailed(cause: OrderError)

  /** OrderActionResult. */
  datatype OrderActionResult = OrderOk(orderId: nat) | OrderFail(failure: OrderFailure)

  /** CancelOrderResult, whose texts come from the cancellation query. */
  datatype CancelOrderResult = CancelOk(message: string) | CancelFail(error: string)

  /** The store calls that can fail; a run of an operation receives the set of its calls that fail. */
  datatype StoreCall =
    | SelectProduct            // product lookup in addToCart / updateCartQuantity
    | SelectCartLine           // existing-line lookup (addToCart) or ownership lookup (updateCartQuantity)
    | UpdateCartLine
    | InsertCartLine
    | DeleteCartLine
    | SelectCart               // listing or counting an owner's cart lines
    | CheckProduct(line: nat)  // createOrder: re-reading the product of cart line `line`
    | InsertOrder
    | InsertOrderItems
    | DecrementStock(line: nat)
    | DeleteOrder              // createOrder: the compensating delete of the header
    | ClearCart
    | SelectOrder
    | SelectOrderItems
    | SelectOrders

  /** A digit as matched by the class [0-9]. */
  predicate IsDigit(c: char) {
    '0' <= c <= '9'
  }

  /** The phone pattern /^[0-9-]+$/: non-empty, only digits and '-'. */
  predicate IsPhone(s: string) {
    |s| >= 1 && forall i :: 0 <= i < |s| ==> IsDigit(s[i]) || s[i] == '-'
  }

  /** The postal-code pattern /^[0-9]{5}$/: exactly five digits. */
  predicate IsPostalCode(s: string) {
    |s| == 5 && forall i :: 0 <= i < |s| ==> IsDigit(s[i])
  }
}

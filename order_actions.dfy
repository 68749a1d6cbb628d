/**
 * actions/order.ts: the server actions in front of the order queries. The
 * signed-in identity is an input (`None` when nobody is signed in); every
 * exception the source catches becomes a failure value here.
 */
module OrderActions {
  import opened Types
  import opened Database
  import CartQueries
  import CartActions
  import OrderQueries

  /** No field of the address may be empty (the source tests each with `!field`). */
  predicate Complete(a: ShippingAddress) {
    a.recipient != [] && a.phone != [] && a.postalCode != [] && a.address1 != []
  }

  /**
   * The first problem of the shipping address, tested in the order completeness,
   * phone pattern, postal-code pattern; `None` when the address passes all three.
   */
  function ShippingProblem(a: ShippingAddress): (r: Option<OrderFailure>)
    ensures r.None? <==> Complete(a) && IsPhone(a.phone) && IsPostalCode(a.postalCode)
    ensures r == Some(MissingShippingInfo) <==> !Complete(a)
    ensures r == Some(InvalidPhone) <==> Complete(a) && !IsPhone(a.phone)
    ensures r == Some(InvalidPostalCode) <==> Complete(a) && IsPhone(a.phone) && !IsPostalCode(a.postalCode)
  {
    if !Complete(a) then Some(MissingShippingInfo)
    else if !IsPhone(a.phone) then Some(InvalidPhone)
    else if !IsPostalCode(a.postalCode) then Some(InvalidPostalCode)
    else None
  }

  /** The query's thrown error, or its order id, as the action reports it. */
  function ActionResultOf(r: Result<nat, OrderError>): (a: OrderActionResult)
    ensures a.OrderOk? <==> r.Success?
    ensures a.OrderOk? ==> a.orderId == r.value
    ensures a.OrderFail? ==> a.failure == QueryFailed(r.error)
  {
    match r
    case Success(id) => OrderOk(id)
    case Failure(e) => OrderFail(QueryFailed(e))
  }

  /**
   * The createOrder action: identity, then the address checks, then the cart
   * read and the empty-cart check, and only then the order query.
   */
  function CreateOrderActionOutcome(st: State, owner: Option<OwnerId>, input: CreateOrderInput,
                                    faults: set<StoreCall>): Step<OrderActionResult>
    requires CartWf(st)
  {
    if owner.None? then Step(OrderFail(NotSignedIn), st)
    else if ShippingProblem(input.shippingAddress).Some? then
      Step(OrderFail(ShippingProblem(input.shippingAddress).value), st)
    else
      var cart := CartActions.GetCartItems(st, owner, faults);
      if cart.Failure? then Step(OrderFail(CartReadFailed), st)
      else if cart.value == [] then Step(OrderFail(CartEmpty), st)
      else
        var out := OrderQueries.CreateOrderOutcome(st, owner.value, cart.value, input, faults);
        Step(ActionResultOf(out.result), out.state)
  }

  method CreateOrder(s: Store, owner: Option<OwnerId>, input: CreateOrderInput, faults: set<StoreCall>)
    returns (r: OrderActionResult)
    requires s.Valid()
    modifies s
    ensures s.Valid()
    ensures Step(r, s.Snapshot()) == CreateOrderActionOutcome(old(s.Snapshot()), owner, input, faults)
  {
    if owner.None? {
      return OrderFail(NotSignedIn);
    }
    var problem := ShippingProblem(input.shippingAddress);
    if problem.Some? {
      return OrderFail(problem.value);
    }
    var cart := CartActions.GetCartItems(s.Snapshot(), owner, faults);
    if cart.Failure? {
      return OrderFail(CartReadFailed);
    }
    if |cart.value| == 0 {
      return OrderFail(CartEmpty);
    }
    var created := OrderQueries.CreateOrder(s, owner.value, cart.value, input, faults);
    r := ActionResultOf(created);
  }

  // ------------------------------------------------------------ the reads

  /** getOrder: null without identity, when the order is absent or foreign, and on any exception. */
  function GetOrder(st: State, orderId: nat, owner: Option<OwnerId>, faults: set<StoreCall>): (r: Option<OrderWithItems>)
    requires OrdersWf(st)
    ensures r.Some? <==>
      && owner.Some?
      && SelectOrder !in faults && SelectOrderItems !in faults
      && orderId in st.orders && st.orders[orderId].owner == owner.value
    ensures r.Some? ==> r.value.order == st.orders[orderId] && r.value.items == OrderQueries.OrderItemsOf(st, orderId)
  {
    if owner.None? then None
    else
      match OrderQueries.GetOrderById(st, orderId, owner.value, faults)
      case Failure(_) => None
      case Success(found) => found
  }

  /** getUserOrders: an empty list without identity or on any failure, else the owner's orders. */
  function GetUserOrders(st: State, owner: Option<OwnerId>, faults: set<StoreCall>): (r: seq<Order>)
    requires OrdersWf(st)
    ensures owner.None? || SelectOrders in faults ==> r == []
    ensures owner.Some? && SelectOrders !in faults ==> r == OrderQueries.GetUserOrders(st, owner.value, faults).value
    ensures forall i :: 0 <= i < |r| ==> r[i].id in st.orders && st.orders[r[i].id] == r[i] && r[i].owner == owner.value
  {
    if owner.None? then []
    else
      match OrderQueries.GetUserOrders(st, owner.value, faults)
      case Failure(_) => []
      case Success(orders) => orders
  }

  /** How the cancellation query ended: with a result, or by throwing. */
  datatype CancelQueryOutcome = Returned(result: CancelOrderResult) | ThrewError(message: string) | ThrewOther

  const LoginRequired: string := "로그인이 필요합니다."
  const CancelFallback: string := "주문 취소 중 오류가 발생했습니다."

  /**
   * cancelOrder: without identity the query is not called; otherwise its
   * result is passed on unchanged and a throw becomes a failure with its message.
   */
  function CancelOrder(owner: Option<OwnerId>, query: CancelQueryOutcome): (r: CancelOrderResult)
    ensures owner.None? ==> r == CancelFail(LoginRequired)
    ensures owner.Some? && query.Returned? ==> r == query.result
    ensures owner.Some? && query.ThrewError? ==> r == CancelFail(query.message)
    ensures owner.Some? && query.ThrewOther? ==> r == CancelFail(CancelFallback)
  {
    if owner.None? then CancelFail(LoginRequired)
    else
      match query
      case Returned(result) => result
      case ThrewError(message) => CancelFail(message)
      case ThrewOther => CancelFail(CancelFallback)
  }

  // ------------------------------------------------------------ properties

  /** Every path of the action leaves the tables well formed. */
  lemma {:induction false} CreateOrderActionKeepsWf(st: State, owner: Option<OwnerId>, input: CreateOrderInput,
                                                    faults: set<StoreCall>)
    requires Wf(st)
    ensures Wf(CreateOrderActionOutcome(st, owner, input, faults).state)
  {
    if owner.Some? && ShippingProblem(input.shippingAddress).None? && SelectCart !in faults {
      var cart := CartQueries.GetCartItemsWithProducts(st, owner.value, faults).value;
      OrderQueries.CreateOrderKeepsWf(st, owner.value, cart, input, faults);
    }
  }

  /**
   * Any failure before the query (no identity, a bad address, an unreadable or
   * empty cart) leaves every table unchanged, and the first failing check in the
   * order identity, address, cart read, cart emptiness decides the reason.
   */
  lemma {:induction false} EarlyFailureWritesNothing(st: State, owner: Option<OwnerId>, input: CreateOrderInput,
                                                     faults: set<StoreCall>)
    requires CartWf(st)
    ensures var out := CreateOrderActionOutcome(st, owner, input, faults);
      && (owner.None? ==> out.result == OrderFail(NotSignedIn))
      && (owner.Some? && ShippingProblem(input.shippingAddress).Some? ==>
            out.result == OrderFail(ShippingProblem(input.shippingAddress).value))
      && (out.result.OrderFail? && !out.result.failure.QueryFailed? ==> out.state == st)
  {
  }

  /**
   * The action succeeds exactly when the cart is non-empty, the identity and
   * address pass, the cart read succeeds and the query succeeds; it then
   * returns exactly the query's id.
   */
  lemma {:induction false} CreateOrderActionSucceedsIff(st: State, owner: Option<OwnerId>, input: CreateOrderInput,
                                                        faults: set<StoreCall>)
    requires CartWf(st)
    ensures var out := CreateOrderActionOutcome(st, owner, input, faults);
      out.result.OrderOk? <==>
        && owner.Some?
        && ShippingProblem(input.shippingAddress).None?
        && SelectCart !in faults
        && var cart := CartQueries.GetCartItemsWithProducts(st, owner.value, faults).value;
           && cart != []
           && OrderQueries.CreateOrderOutcome(st, owner.value, cart, input, faults).result.Success?
    ensures var out := CreateOrderActionOutcome(st, owner, input, faults);
      out.result.OrderOk? ==>
        out.result.orderId ==
          OrderQueries.CreateOrderOutcome(st, owner.value, CartQueries.GetCartItemsWithProducts(st, owner.value, faults).value,
            input, faults).result.value
  {
  }

  /**
   * After a successful checkout, every cart line the owner had has taken its
   * quantity off its product's stock, and the owner's cart is empty unless
   * the clearing delete failed.
   */
  lemma {:induction false} CheckoutConsumesCart(st: State, owner: OwnerId, input: CreateOrderInput, faults: set<StoreCall>)
    requires Wf(st)
    requires CreateOrderActionOutcome(st, Some(owner), input, faults).result.OrderOk?
    ensures var post := CreateOrderActionOutcome(st, Some(owner), input, faults).state;
      forall k :: k in st.cartItems && st.cartItems[k].owner == owner ==>
        var p := st.cartItems[k].productId;
        p in st.products && p in post.products &&
        post.products[p].stockQuantity == st.products[p].stockQuantity - st.cartItems[k].quantity
    ensures var post := CreateOrderActionOutcome(st, Some(owner), input, faults).state;
      ClearCart !in faults ==> forall k :: k in post.cartItems ==> post.cartItems[k].owner != owner
  {
    var cart := CartQueries.GetCartItemsWithProducts(st, owner, faults).value;
    var post := CreateOrderActionOutcome(st, Some(owner), input, faults).state;
    assert post == OrderQueries.CreateOrderOutcome(st, owner, cart, input, faults).state;
    CartQueries.ListedProductsDistinct(st, owner, faults);
    OrderQueries.SuccessfulOrderDecrementsStock(st, owner, cart, input, faults);
    OrderQueries.SuccessfulOrderClearsCart(st, owner, cart, input, faults);
    ListedLinesDecremented(st, owner, faults, cart, post.products);
  }

  /** A stock drop for every listed line is a stock drop for every line of the owner. */
  lemma {:induction false} ListedLinesDecremented(st: State, owner: OwnerId, faults: set<StoreCall>,
                                                  cart: seq<CartItemWithProduct>, products: map<ProductId, Product>)
    requires CartWf(st) && SelectCart !in faults
    requires cart == CartQueries.GetCartItemsWithProducts(st, owner, faults).value
    requires forall i :: 0 <= i < |cart| ==>
      && cart[i].productId in st.products
      && cart[i].productId in products
      && products[cart[i].productId].stockQuantity == st.products[cart[i].productId].stockQuantity - cart[i].quantity
    ensures forall k :: k in st.cartItems && st.cartItems[k].owner == owner ==>
      var p := st.cartItems[k].productId;
      p in st.products && p in products &&
      products[p].stockQuantity == st.products[p].stockQuantity - st.cartItems[k].quantity
  {
    forall k | k in st.cartItems && st.cartItems[k].owner == owner
      ensures var p := st.cartItems[k].productId;
        p in st.products && p in products &&
        products[p].stockQuantity == st.products[p].stockQuantity - st.cartItems[k].quantity
    {
      CartQueries.CartListingComplete(st, owner, faults, k);
      var ids := CartQueries.ItemIds(cart);
      var i :| 0 <= i < |ids| && ids[i] == k;
      assert CartQueries.LineOf(cart[i]) == st.cartItems[k];
    }
  }

  /** The order a successful checkout returns can be read back by its owner as stored. */
  lemma {:induction false} CheckoutReadsBack(st: State, owner: OwnerId, input: CreateOrderInput, faults: set<StoreCall>,
                                             readFaults: set<StoreCall>)
    requires Wf(st)
    requires CreateOrderActionOutcome(st, Some(owner), input, faults).result.OrderOk?
    requires SelectOrder !in readFaults && SelectOrderItems !in readFaults
    ensures OrdersWf(CreateOrderActionOutcome(st, Some(owner), input, faults).state)
    ensures var out := CreateOrderActionOutcome(st, Some(owner), input, faults);
      var found := GetOrder(out.state, out.result.orderId, Some(owner), readFaults);
      && found.Some?
      && found.value.order.owner == owner
      && found.value.order.status == Pending
      && found.value.order.shippingAddress == input.shippingAddress
  {
    var cart := CartQueries.GetCartItemsWithProducts(st, owner, faults).value;
    OrderQueries.StoredOrderReadsBack(st, owner, cart, input, faults, readFaults);
    OrderQueries.SuccessfulOrderHeader(st, owner, cart, input, faults);
  }
}

/**
 * lib/supabase/queries/order.ts: order creation as a sequence of store
 * writes with compensating deletes, and the two order reads.
 *
 * `CreateOrderOutcome` states, as a function of the tables before the call,
 * what `createOrder` returns and leaves behind; the method `CreateOrder`
 * performs the same protocol step by step on a `Store` and is proved equal
 * to it. `faults` names the store calls that fail during the run; the
 * per-line product reads and stock decrements are named by line index.
 */
module OrderQueries {
  import opened Types
  import opened Database
  import Tables
  import Sums

  // ------------------------------------------------------------- the total

  /** The total: the cart snapshot's price times quantity, summed with reduce (the cart summary repeats this expression). */
  function OrderTotal(cart: seq<CartItemWithProduct>): (total: int)
    ensures total == Sums.Sum(cart, Sums.LineAmount)
  {
    Sums.ReduceIsSum(cart, Sums.LineAmount, 0);
    Sums.Reduce(cart, Sums.LineAmount, 0)
  }

  // -------------------------------------------------------- stock checking

  /**
   * Why line `k` of the cart is refused when its product is read back:
   * not found (or the read failed), inactive, or short of stock. The message
   * names the product by the cart snapshot's name.
   */
  function LineRejection(products: map<ProductId, Product>, item: CartItemWithProduct, k: nat,
                         faults: set<StoreCall>): (r: Option<OrderError>)
    ensures r.None? <==>
      && CheckProduct(k) !in faults && item.productId in products
      && products[item.productId].isActive && products[item.productId].stockQuantity >= item.quantity
  {
    if CheckProduct(k) in faults || item.productId !in products then Some(OrderProductNotFound(item.product.name))
    else if !products[item.productId].isActive then Some(OrderProductInactive(item.product.name))
    else if products[item.productId].stockQuantity < item.quantity then
      Some(OrderInsufficientStock(item.product.name, products[item.productId].stockQuantity))
    else None
  }

  /** The first line at or after `from` whose check fails. */
  function FirstRejectedFrom(products: map<ProductId, Product>, cart: seq<CartItemWithProduct>,
                             faults: set<StoreCall>, from: nat): (r: Option<nat>)
    requires from <= |cart|
    ensures r.Some? ==>
      && from <= r.value < |cart|
      && LineRejection(products, cart[r.value], r.value, faults).Some?
      && forall j :: from <= j < r.value ==> LineRejection(products, cart[j], j, faults).None?
    ensures r.None? ==> forall j :: from <= j < |cart| ==> LineRejection(products, cart[j], j, faults).None?
    decreases |cart| - from
  {
    if from == |cart| then None
    else if LineRejection(products, cart[from], from, faults).Some? then Some(from)
    else FirstRejectedFrom(products, cart, faults, from + 1)
  }

  function FirstRejected(products: map<ProductId, Product>, cart: seq<CartItemWithProduct>,
                         faults: set<StoreCall>): Option<nat>
  {
    FirstRejectedFrom(products, cart, faults, 0)
  }

  /** The first line whose stock decrement fails. */
  function FirstDecrementFailureFrom(cart: seq<CartItemWithProduct>, faults: set<StoreCall>, from: nat): (r: Option<nat>)
    requires from <= |cart|
    ensures r.Some? ==>
      && from <= r.value < |cart| && DecrementStock(r.value) in faults
      && forall j :: from <= j < r.value ==> DecrementStock(j) !in faults
    ensures r.None? ==> forall j :: from <= j < |cart| ==> DecrementStock(j) !in faults
    decreases |cart| - from
  {
    if from == |cart| then None
    else if DecrementStock(from) in faults then Some(from)
    else FirstDecrementFailureFrom(cart, faults, from + 1)
  }

  function FirstDecrementFailure(cart: seq<CartItemWithProduct>, faults: set<StoreCall>): Option<nat> {
    FirstDecrementFailureFrom(cart, faults, 0)
  }

  /** The products after the successful decrements of the given lines, in order. */
  function ApplyDecrements(products: map<ProductId, Product>, lines: seq<CartItemWithProduct>)
    : (r: map<ProductId, Product>)
    ensures r.Keys == products.Keys
    ensures forall p :: p in r ==> r[p] == products[p].(stockQuantity := r[p].stockQuantity)
    decreases |lines|
  {
    if lines == [] then products
    else
      var last := lines[|lines| - 1];
      Decrement(ApplyDecrements(products, lines[..|lines| - 1]), last.productId, last.quantity)
  }

  /** The product ids a list of lines refers to. */
  function ProductIds(lines: seq<CartItemWithProduct>): (r: set<ProductId>)
    ensures forall i :: 0 <= i < |lines| ==> lines[i].productId in r
    ensures forall p :: p in r ==> exists i :: 0 <= i < |lines| && lines[i].productId == p
  {
    set i | 0 <= i < |lines| :: lines[i].productId
  }

  /**
   * With one line per product, the decrements take each line's quantity off
   * its own product and leave every other product as it was.
   */
  lemma {:induction false} ApplyDecrementsPerLine(products: map<ProductId, Product>, lines: seq<CartItemWithProduct>)
    requires forall i, j :: 0 <= i < j < |lines| ==> lines[i].productId != lines[j].productId
    ensures var r := ApplyDecrements(products, lines);
      forall i :: 0 <= i < |lines| && lines[i].productId in products ==>
        r[lines[i].productId].stockQuantity == products[lines[i].productId].stockQuantity - lines[i].quantity
    ensures var r := ApplyDecrements(products, lines);
      forall p :: p in products && p !in ProductIds(lines) ==> r[p] == products[p]
    decreases |lines|
  {
    if lines != [] {
      var init := lines[..|lines| - 1];
      var last := lines[|lines| - 1];
      ApplyDecrementsPerLine(products, init);
      var before := ApplyDecrements(products, init);
      var r := ApplyDecrements(products, lines);
      assert r == Decrement(before, last.productId, last.quantity);
      forall i | 0 <= i < |lines| && lines[i].productId in products
        ensures r[lines[i].productId].stockQuantity == products[lines[i].productId].stockQuantity - lines[i].quantity
      {
        if i < |lines| - 1 {
          assert init[i] == lines[i];
        } else {
          assert last.productId !in ProductIds(init);
        }
      }
      forall p | p in products && p !in ProductIds(lines)
        ensures r[p] == products[p]
      {
        assert p != last.productId;
      }
    }
  }

  // ------------------------------------------------------------- the rows

  /** `orderInput.orderNote || null`: an absent or empty note is stored as null. */
  function NoteOrNull(note: Option<string>): (r: Option<string>)
    ensures r.None? <==> note.None? || note == Some("")
    ensures r.Some? ==> r == note
  {
    match note
    case None => None
    case Some(text) => if text == "" then None else note
  }

  /** The header row inserted for a validated cart. */
  function NewOrder(id: nat, owner: OwnerId, cart: seq<CartItemWithProduct>, input: CreateOrderInput): Order {
    Order(id, owner, OrderTotal(cart), Pending, input.shippingAddress, NoteOrNull(input.orderNote), id)
  }

  /** One row of the `cartItems.map(...)` batch, before the store assigns its id and timestamp. */
  datatype OrderItemDraft = OrderItemDraft(orderId: nat, productId: ProductId, productName: string, quantity: int, price: int)

  /** The snapshot rows: one per cart line, in cart order, copying product id, name, quantity and price. */
  function OrderItemRows(orderId: nat, cart: seq<CartItemWithProduct>): (rows: seq<OrderItemDraft>)
    ensures |rows| == |cart|
    ensures forall i :: 0 <= i < |cart| ==>
      rows[i] == OrderItemDraft(orderId, cart[i].productId, cart[i].product.name, cart[i].quantity, cart[i].product.price)
  {
    seq(|cart|, i requires 0 <= i < |cart| =>
      OrderItemDraft(orderId, cart[i].productId, cart[i].product.name, cart[i].quantity, cart[i].product.price))
  }

  /** A draft as stored under id `id`. */
  function Stamp(draft: OrderItemDraft, id: nat): OrderItem {
    OrderItem(id, draft.orderId, draft.productId, draft.productName, draft.quantity, draft.price, id)
  }

  /** The batch insert: the drafts are stored under consecutive ids from `firstId`. */
  function InsertItems(items: map<nat, OrderItem>, firstId: nat, drafts: seq<OrderItemDraft>): (r: map<nat, OrderItem>)
    ensures forall k :: k in r <==> k in items || firstId <= k < firstId + |drafts|
    ensures forall k :: firstId <= k < firstId + |drafts| ==> r[k].id == k && r[k].createdAt == k
    ensures forall k :: k in items && !(firstId <= k < firstId + |drafts|) ==> r[k] == items[k]
    decreases |drafts|
  {
    if drafts == [] then items
    else InsertItems(items[firstId := Stamp(drafts[0], firstId)], firstId + 1, drafts[1..])
  }

  /** The price times quantity of one stored row. */
  function RowAmount(item: OrderItem): int {
    item.price * item.quantity
  }

  // ------------------------------------------------------ the write stages

  /** After the header insert: the new pending order under the next id. */
  function WithHeader(st: State, owner: OwnerId, cart: seq<CartItemWithProduct>, input: CreateOrderInput): State {
    st.(orders := st.orders[st.nextId := NewOrder(st.nextId, owner, cart, input)], nextId := st.nextId + 1)
  }

  /** After the batch insert of the snapshot rows of order `orderId`. */
  function WithItems(st: State, orderId: nat, cart: seq<CartItemWithProduct>): State {
    st.(orderItems := InsertItems(st.orderItems, st.nextId, OrderItemRows(orderId, cart)), nextId := st.nextId + |cart|)
  }

  /** The compensating `delete().eq("id", orderId)`, whose own failure the source ignores. */
  function Compensate(st: State, orderId: nat, faults: set<StoreCall>): State {
    if DeleteOrder in faults then st else DeleteOrderCascade(st, orderId)
  }

  /** The final `delete().eq("clerk_id", owner)` on cart_items, whose failure is only logged. */
  function ClearOwnerCart(st: State, owner: OwnerId, faults: set<StoreCall>): State {
    if ClearCart in faults then st else st.(cartItems := WithoutOwner(st.cartItems, owner))
  }

  /** The error of the first rejected line, if any. */
  function FirstRejection(products: map<ProductId, Product>, cart: seq<CartItemWithProduct>,
                          faults: set<StoreCall>): (r: Option<OrderError>)
    ensures r.None? <==> forall j :: 0 <= j < |cart| ==> LineRejection(products, cart[j], j, faults).None?
  {
    match FirstRejected(products, cart, faults)
    case Some(k) => LineRejection(products, cart[k], k, faults)
    case None => None
  }

  // ------------------------------------------------------------- createOrder

  function CreateOrderOutcome(st: State, owner: OwnerId, cart: seq<CartItemWithProduct>, input: CreateOrderInput,
                              faults: set<StoreCall>): Step<Result<nat, OrderError>>
  {
    if |cart| == 0 then Step(Failure(EmptyCart), st)
    else if FirstRejection(st.products, cart, faults).Some? then
      Step(Failure(FirstRejection(st.products, cart, faults).value), st)
    else if InsertOrder in faults then Step(Failure(OrderInsertFailed), st)
    else AfterHeader(WithHeader(st, owner, cart, input), st.nextId, owner, cart, faults)
  }

  /** createOrder once the header `orderId` is stored. */
  function AfterHeader(withHeader: State, orderId: nat, owner: OwnerId, cart: seq<CartItemWithProduct>,
                       faults: set<StoreCall>): Step<Result<nat, OrderError>>
  {
    if InsertOrderItems in faults then Step(Failure(OrderItemsInsertFailed), Compensate(withHeader, orderId, faults))
    else AfterItems(WithItems(withHeader, orderId, cart), orderId, owner, cart, faults)
  }

  /** createOrder once the header `orderId` and its rows are stored. */
  function AfterItems(withItems: State, orderId: nat, owner: OwnerId, cart: seq<CartItemWithProduct>,
                      faults: set<StoreCall>): Step<Result<nat, OrderError>>
  {
    match FirstDecrementFailure(cart, faults)
    case Some(d) =>
      Step(Failure(StockDecrementFailed),
           Compensate(withItems.(products := ApplyDecrements(withItems.products, cart[..d])), orderId, faults))
    case None =>
      Step(Success(orderId), ClearOwnerCart(withItems.(products := ApplyDecrements(withItems.products, cart)), owner, faults))
  }

  /**
   * The validation loop: re-reads each line's product in cart order and stops
   * at the first line that is missing, inactive or short of stock.
   */
  method CheckLines(s: Store, cart: seq<CartItemWithProduct>, faults: set<StoreCall>)
      returns (rejection: Option<OrderError>)
    ensures rejection == FirstRejection(s.products, cart, faults)
  {
    var i := 0;
    while i < |cart|
      invariant 0 <= i <= |cart|
      invariant forall j :: 0 <= j < i ==> LineRejection(s.products, cart[j], j, faults).None?
    {
      var item := cart[i];
      if CheckProduct(i) in faults || item.productId !in s.products {
        FirstRejectedIs(s.products, cart, faults, i);
        return Some(OrderProductNotFound(item.product.name));
      }
      var product := s.products[item.productId];
      if !product.isActive {
        FirstRejectedIs(s.products, cart, faults, i);
        return Some(OrderProductInactive(item.product.name));
      }
      if product.stockQuantity < item.quantity {
        FirstRejectedIs(s.products, cart, faults, i);
        return Some(OrderInsufficientStock(item.product.name, product.stockQuantity));
      }
      i := i + 1;
    }
    return None;
  }

  /**
   * The decrement loop: one `decrement_stock` call per line in cart order,
   * stopping at the first failing call; the calls made before it stay applied.
   */
  method DecrementLines(s: Store, cart: seq<CartItemWithProduct>, faults: set<StoreCall>)
      returns (failed: Option<nat>)
    modifies s
    ensures failed == FirstDecrementFailure(cart, faults)
    ensures failed.None? ==> s.Snapshot() == old(s.Snapshot()).(products := ApplyDecrements(old(s.products), cart))
    ensures failed.Some? ==>
      && failed.value <= |cart|
      && s.Snapshot() == old(s.Snapshot()).(products := ApplyDecrements(old(s.products), cart[..failed.value]))
  {
    var i := 0;
    while i < |cart|
      invariant 0 <= i <= |cart|
      invariant s.Snapshot() == old(s.Snapshot()).(products := ApplyDecrements(old(s.products), cart[..i]))
      invariant forall j :: 0 <= j < i ==> DecrementStock(j) !in faults
    {
      if DecrementStock(i) in faults {
        FirstDecrementIs(cart, faults, i);
        return Some(i);
      }
      assert cart[..i + 1][..i] == cart[..i];
      s.products := Decrement(s.products, cart[i].productId, cart[i].quantity);
      i := i + 1;
    }
    assert cart[..|cart|] == cart;
    NoDecrementFails(cart, faults);
    return None;
  }

  /** The compensating delete, performed on the store. */
  method DeleteOrderRow(s: Store, orderId: nat, faults: set<StoreCall>)
    modifies s
    ensures s.Snapshot() == Compensate(old(s.Snapshot()), orderId, faults)
  {
    if DeleteOrder !in faults {
      s.orders := map k | k in s.orders && k != orderId :: s.orders[k];
      s.orderItems := map k | k in s.orderItems && s.orderItems[k].orderId != orderId :: s.orderItems[k];
    }
  }

  method CreateOrder(s: Store, owner: OwnerId, cart: seq<CartItemWithProduct>, input: CreateOrderInput,
                     faults: set<StoreCall>) returns (r: Result<nat, OrderError>)
    requires s.Valid()
    modifies s
    ensures s.Valid()
    ensures Step(r, s.Snapshot()) == CreateOrderOutcome(old(s.Snapshot()), owner, cart, input, faults)
  {
    ghost var st := s.Snapshot();
    CreateOrderKeepsWf(st, owner, cart, input, faults);
    if |cart| == 0 {
      return Failure(EmptyCart);
    }
    var totalAmount := OrderTotal(cart);

    var rejection := CheckLines(s, cart, faults);
    if rejection.Some? {
      return Failure(rejection.value);
    }

    // the header
    if InsertOrder in faults {
      return Failure(OrderInsertFailed);
    }
    var id := s.nextId;
    s.orders := s.orders[id := Order(id, owner, totalAmount, Pending, input.shippingAddress, NoteOrNull(input.orderNote), id)];
    s.nextId := id + 1;
    assert s.Snapshot() == WithHeader(st, owner, cart, input);
    r := InsertRowsAndStock(s, id, owner, cart, faults);
  }

  /** The steps of createOrder after the header insert: the snapshot rows, then the stock and the cart. */
  method InsertRowsAndStock(s: Store, orderId: nat, owner: OwnerId, cart: seq<CartItemWithProduct>,
                            faults: set<StoreCall>) returns (r: Result<nat, OrderError>)
    modifies s
    ensures Step(r, s.Snapshot()) == AfterHeader(old(s.Snapshot()), orderId, owner, cart, faults)
  {
    var drafts := OrderItemRows(orderId, cart);
    if InsertOrderItems in faults {
      DeleteOrderRow(s, orderId, faults);
      return Failure(OrderItemsInsertFailed);
    }
    s.orderItems := InsertItems(s.orderItems, s.nextId, drafts);
    s.nextId := s.nextId + |cart|;
    r := DecrementAndClear(s, orderId, owner, cart, faults);
  }

  /** The steps of createOrder after both inserts: the stock decrements, then clearing the cart. */
  method DecrementAndClear(s: Store, orderId: nat, owner: OwnerId, cart: seq<CartItemWithProduct>,
                           faults: set<StoreCall>) returns (r: Result<nat, OrderError>)
    modifies s
    ensures Step(r, s.Snapshot()) == AfterItems(old(s.Snapshot()), orderId, owner, cart, faults)
  {
    var failed := DecrementLines(s, cart, faults);
    if failed.Some? {
      DeleteOrderRow(s, orderId, faults);
      return Failure(StockDecrementFailed);
    }
    // clearing the cart; its failure does not change the result
    if ClearCart !in faults {
      s.cartItems := WithoutOwner(s.cartItems, owner);
    }
    r := Success(orderId);
  }

  lemma {:induction false} FirstRejectedIs(products: map<ProductId, Product>, cart: seq<CartItemWithProduct>, faults: set<StoreCall>, k: nat)
    requires k < |cart|
    requires LineRejection(products, cart[k], k, faults).Some?
    requires forall j :: 0 <= j < k ==> LineRejection(products, cart[j], j, faults).None?
    ensures FirstRejected(products, cart, faults) == Some(k)
    ensures FirstRejection(products, cart, faults) == LineRejection(products, cart[k], k, faults)
  {
  }

  lemma {:induction false} FirstDecrementIs(cart: seq<CartItemWithProduct>, faults: set<StoreCall>, k: nat)
    requires k < |cart| && DecrementStock(k) in faults
    requires forall j :: 0 <= j < k ==> DecrementStock(j) !in faults
    ensures FirstDecrementFailure(cart, faults) == Some(k)
  {
  }

  lemma {:induction false} NoDecrementFails(cart: seq<CartItemWithProduct>, faults: set<StoreCall>)
    requires forall j :: 0 <= j < |cart| ==> DecrementStock(j) !in faults
    ensures FirstDecrementFailure(cart, faults) == None
  {
  }

  // ------------------------------------------------- well-formedness per stage

  lemma {:induction false} WithHeaderKeepsWf(st: State, owner: OwnerId, cart: seq<CartItemWithProduct>, input: CreateOrderInput)
    requires Wf(st)
    ensures Wf(WithHeader(st, owner, cart, input))
  {
  }

  lemma {:induction false} WithItemsKeepsWf(st: State, orderId: nat, cart: seq<CartItemWithProduct>)
    requires Wf(st) && orderId in st.orders
    ensures Wf(WithItems(st, orderId, cart))
  {
    var out := WithItems(st, orderId, cart);
    var drafts := OrderItemRows(orderId, cart);
    InsertPlacesDrafts(out.orderItems, st.orderItems, st.nextId, drafts);
    forall k | k in out.orderItems
      ensures k < out.nextId && out.orderItems[k].id == k && out.orderItems[k].createdAt == k
      ensures out.orderItems[k].orderId in out.orders
    {
      if st.nextId <= k < st.nextId + |cart| {
        var i := k - st.nextId;
        assert st.nextId + i == k;
        assert out.orderItems[st.nextId + i] == Stamp(drafts[i], st.nextId + i);
      }
    }
  }

  lemma {:induction false} NewProductsKeepWf(st: State, products: map<ProductId, Product>)
    requires Wf(st)
    requires products.Keys == st.products.Keys
    requires forall p :: p in products ==> products[p].id == st.products[p].id
    ensures Wf(st.(products := products))
  {
  }

  lemma {:induction false} CompensateKeepsWf(st: State, orderId: nat, faults: set<StoreCall>)
    requires Wf(st)
    ensures Wf(Compensate(st, orderId, faults))
  {
  }

  /** Clearing the cart touches cart_items only. */
  lemma {:induction false} ClearOwnerCartFrame(st: State, owner: OwnerId, faults: set<StoreCall>)
    ensures var out := ClearOwnerCart(st, owner, faults);
      out.products == st.products && out.orders == st.orders && out.orderItems == st.orderItems && out.nextId == st.nextId
  {
  }

  lemma {:induction false} ClearOwnerCartKeepsWf(st: State, owner: OwnerId, faults: set<StoreCall>)
    requires Wf(st)
    ensures Wf(ClearOwnerCart(st, owner, faults))
  {
  }

  /** Every path of createOrder leaves the tables well formed. */
  lemma {:induction false} CreateOrderKeepsWf(st: State, owner: OwnerId, cart: seq<CartItemWithProduct>, input: CreateOrderInput,
                           faults: set<StoreCall>)
    requires Wf(st)
    ensures Wf(CreateOrderOutcome(st, owner, cart, input, faults).state)
  {
    var id := st.nextId;
    var withHeader := WithHeader(st, owner, cart, input);
    WithHeaderKeepsWf(st, owner, cart, input);
    CompensateKeepsWf(withHeader, id, faults);
    var withItems := WithItems(withHeader, id, cart);
    WithItemsKeepsWf(withHeader, id, cart);
    assert withItems.products == st.products;
    match FirstDecrementFailure(cart, faults)
    case Some(d) =>
      if d <= |cart| {
        NewProductsKeepWf(withItems, ApplyDecrements(st.products, cart[..d]));
        CompensateKeepsWf(withItems.(products := ApplyDecrements(st.products, cart[..d])), id, faults);
      }
    case None =>
      NewProductsKeepWf(withItems, ApplyDecrements(st.products, cart));
      ClearOwnerCartKeepsWf(withItems.(products := ApplyDecrements(st.products, cart)), owner, faults);
  }

  // ------------------------------------------------------------ order reads

  /** The ids of the listed order items, in listing order. */
  function OrderItemIds(items: seq<OrderItem>): (ids: seq<nat>)
    ensures |ids| == |items| && forall i :: 0 <= i < |items| ==> ids[i] == items[i].id
  {
    seq(|items|, i requires 0 <= i < |items| => items[i].id)
  }

  /**
   * getOrderById: the order only when both id and owner match, with its items
   * oldest-first; a failed or empty order read gives null (Success(None)),
   * a failed item read throws.
   */
  function GetOrderById(st: State, orderId: nat, owner: OwnerId, faults: set<StoreCall>)
    : (r: Result<Option<OrderWithItems>, StoreCall>)
    requires OrdersWf(st)
    ensures r.Failure? <==>
      SelectOrder !in faults && orderId in st.orders && st.orders[orderId].owner == owner && SelectOrderItems in faults
    ensures r == Success(None) <==>
      SelectOrder in faults || orderId !in st.orders || st.orders[orderId].owner != owner
    ensures r.Success? && r.value.Some? ==>
      var items := r.value.value.items;
      && r.value.value.order == st.orders[orderId]
      && (forall i :: 0 <= i < |items| ==>
            items[i].id in st.orderItems && st.orderItems[items[i].id] == items[i] && items[i].orderId == orderId)
      && (forall i, j :: 0 <= i < j < |items| ==> items[i].createdAt < items[j].createdAt)
  {
    if SelectOrder in faults || orderId !in st.orders || st.orders[orderId].owner != owner then Success(None)
    else if SelectOrderItems in faults then Failure(SelectOrderItems)
    else
      var items := OrderItemsOf(st, orderId);
      Success(Some(OrderWithItems(st.orders[orderId], items)))
  }

  /** The store's answer to `select("*").eq("order_id", orderId).order("created_at", { ascending: true })`. */
  function OrderItemsOf(st: State, orderId: nat): (items: seq<OrderItem>)
    requires OrdersWf(st)
    ensures forall i :: 0 <= i < |items| ==>
      items[i].id in st.orderItems && st.orderItems[items[i].id] == items[i] && items[i].orderId == orderId
    ensures forall i, j :: 0 <= i < j < |items| ==> items[i].createdAt < items[j].createdAt
  {
    Tables.Rows(st.orderItems, Tables.Ascending(st.orderItems, PartOf(orderId), st.nextId))
  }

  /** A found order lists every one of its items. */
  lemma {:induction false} OrderItemsComplete(st: State, orderId: nat, owner: OwnerId, faults: set<StoreCall>, k: nat)
    requires OrdersWf(st)
    requires GetOrderById(st, orderId, owner, faults).Success? && GetOrderById(st, orderId, owner, faults).value.Some?
    requires k in st.orderItems && st.orderItems[k].orderId == orderId
    ensures k in OrderItemIds(GetOrderById(st, orderId, owner, faults).value.value.items)
  {
    var ids := Tables.Ascending(st.orderItems, PartOf(orderId), st.nextId);
    Tables.AscendingComplete(st.orderItems, PartOf(orderId), st.nextId, k);
    assert OrderItemIds(OrderItemsOf(st, orderId)) == ids;
  }

  /** The ids of listed orders, in listing order. */
  function OrderIds(orders: seq<Order>): (ids: seq<nat>)
    ensures |ids| == |orders| && forall i :: 0 <= i < |orders| ==> ids[i] == orders[i].id
  {
    seq(|orders|, i requires 0 <= i < |orders| => orders[i].id)
  }

  /** getUserOrders: the owner's orders newest-first; a failed read throws. */
  function GetUserOrders(st: State, owner: OwnerId, faults: set<StoreCall>): (r: Result<seq<Order>, StoreCall>)
    requires OrdersWf(st)
    ensures r.Failure? <==> SelectOrders in faults
    ensures r.Success? ==> forall i :: 0 <= i < |r.value| ==>
      r.value[i].id in st.orders && st.orders[r.value[i].id] == r.value[i] && r.value[i].owner == owner
    ensures r.Success? ==> forall i, j :: 0 <= i < j < |r.value| ==> r.value[i].createdAt > r.value[j].createdAt
  {
    if SelectOrders in faults then Failure(SelectOrders)
    else Success(Tables.Rows(st.orders, Tables.Descending(st.orders, PlacedBy(owner), st.nextId)))
  }

  /** Every order the owner placed is listed. */
  lemma {:induction false} UserOrdersComplete(st: State, owner: OwnerId, faults: set<StoreCall>, k: nat)
    requires OrdersWf(st)
    requires SelectOrders !in faults
    requires k in st.orders && st.orders[k].owner == owner
    ensures k in OrderIds(GetUserOrders(st, owner, faults).value)
  {
    var ids := Tables.Descending(st.orders, PlacedBy(owner), st.nextId);
    Tables.DescendingComplete(st.orders, PlacedBy(owner), st.nextId, k);
    assert OrderIds(Tables.Rows(st.orders, ids)) == ids;
  }

  // ------------------------------------------------------ createOrder lemmas

  /** An empty cart fails before any store read or write. */
  lemma {:induction false} EmptyCartFailsFirst(st: State, owner: OwnerId, input: CreateOrderInput, faults: set<StoreCall>)
    ensures CreateOrderOutcome(st, owner, [], input, faults) == Step(Failure(EmptyCart), st)
  {
  }

  /** The first line whose product is missing, inactive or short decides the error, and nothing is written. */
  lemma {:induction false} RejectedLineDecidesError(st: State, owner: OwnerId, cart: seq<CartItemWithProduct>, input: CreateOrderInput,
                                 faults: set<StoreCall>, k: nat)
    requires k < |cart|
    requires LineRejection(st.products, cart[k], k, faults).Some?
    requires forall j :: 0 <= j < k ==> LineRejection(st.products, cart[j], j, faults).None?
    ensures CreateOrderOutcome(st, owner, cart, input, faults) ==
      Step(Failure(LineRejection(st.products, cart[k], k, faults).value), st)
  {
    FirstRejectedIs(st.products, cart, faults, k);
  }

  /**
   * createOrder returns an id exactly when the cart is non-empty, every line
   * passes its check, both inserts succeed and every decrement succeeds; the
   * id is then the one the header was stored under.
   */
  lemma {:induction false} CreateOrderSucceedsIff(st: State, owner: OwnerId, cart: seq<CartItemWithProduct>, input: CreateOrderInput,
                               faults: set<StoreCall>)
    ensures var out := CreateOrderOutcome(st, owner, cart, input, faults);
      out.result.Success? <==>
        && |cart| > 0
        && (forall j :: 0 <= j < |cart| ==> LineRejection(st.products, cart[j], j, faults).None?)
        && InsertOrder !in faults && InsertOrderItems !in faults
        && (forall j :: 0 <= j < |cart| ==> DecrementStock(j) !in faults)
    ensures var out := CreateOrderOutcome(st, owner, cart, input, faults);
      out.result.Success? ==> out.result.value == st.nextId
  {
    if (forall j :: 0 <= j < |cart| ==> DecrementStock(j) !in faults) {
      NoDecrementFails(cart, faults);
    }
  }

  /** The tables a successful createOrder leaves behind. */
  lemma {:induction false} SuccessState(st: State, owner: OwnerId, cart: seq<CartItemWithProduct>, input: CreateOrderInput,
                                        faults: set<StoreCall>)
    requires CreateOrderOutcome(st, owner, cart, input, faults).result.Success?
    ensures CreateOrderOutcome(st, owner, cart, input, faults).state ==
      ClearOwnerCart(WithItems(WithHeader(st, owner, cart, input), st.nextId, cart).(products := ApplyDecrements(st.products, cart)),
                     owner, faults)
    ensures forall j :: 0 <= j < |cart| ==> LineRejection(st.products, cart[j], j, faults).None?
    ensures 0 < |cart|
  {
  }

  /**
   * A stored order: a pending header carrying the given address, the note or
   * null, and the snapshot total, added under the fresh id and no other order changed.
   */
  lemma {:induction false} SuccessfulOrderHeader(st: State, owner: OwnerId, cart: seq<CartItemWithProduct>, input: CreateOrderInput,
                              faults: set<StoreCall>)
    requires CreateOrderOutcome(st, owner, cart, input, faults).result.Success?
    ensures var out := CreateOrderOutcome(st, owner, cart, input, faults);
      var id := out.result.value;
      && out.state.orders == st.orders[id := out.state.orders[id]]
      && out.state.orders[id].owner == owner
      && out.state.orders[id].status == Pending
      && out.state.orders[id].totalAmount == Sums.Sum(cart, Sums.LineAmount)
      && out.state.orders[id].shippingAddress == input.shippingAddress
      && out.state.orders[id].orderNote == (if input.orderNote == Some("") then None else input.orderNote)
  {
    CreateOrderSucceedsIff(st, owner, cart, input, faults);
    SuccessState(st, owner, cart, input, faults);
  }

  /** The rows of order `id`, all stored above every older row, are listed as exactly the keys id+1..id+n. */
  lemma {:induction false} NewRowIdsListed(m: map<nat, OrderItem>, id: nat, n: nat)
    requires forall k :: 0 <= k <= id && k in m ==> m[k].orderId != id
    requires forall k :: id + 1 <= k < id + 1 + n ==> k in m && m[k].orderId == id
    ensures var ids := Tables.Ascending(m, PartOf(id), id + 1 + n);
      |ids| == n && forall i :: 0 <= i < n ==> ids[i] == id + 1 + i
  {
    var keep := PartOf(id);
    assert forall k :: 0 <= k < id + 1 && k in m ==> !keep(m[k]);
    assert forall k :: id + 1 <= k < id + 1 + n ==> k in m && keep(m[k]);
    Tables.AscendingOfFreshBlock(m, keep, id + 1, id + 1 + n);
  }

  /**
   * The snapshot rows of a new order, stored above every older row, are
   * listed back as exactly those rows in cart order.
   */
  lemma {:induction false} NewRowsListed(m: map<nat, OrderItem>, id: nat, drafts: seq<OrderItemDraft>, bound: nat)
    requires bound == id + 1 + |drafts|
    requires forall k :: 0 <= k <= id && k in m ==> m[k].orderId != id
    requires forall i :: 0 <= i < |drafts| ==> id + 1 + i in m && m[id + 1 + i] == Stamp(drafts[i], id + 1 + i)
    requires forall i :: 0 <= i < |drafts| ==> drafts[i].orderId == id
    ensures var items := Tables.Rows(m, Tables.Ascending(m, PartOf(id), bound));
      |items| == |drafts| && forall i :: 0 <= i < |drafts| ==> items[i] == Stamp(drafts[i], id + 1 + i)
  {
    forall k | id + 1 <= k < id + 1 + |drafts|
      ensures k in m && m[k].orderId == id
    {
      var i := k - (id + 1);
      var d := drafts[i];
      assert id + 1 + i == k && id + 1 + i in m;
      assert m[id + 1 + i] == Stamp(d, id + 1 + i);
    }
    NewRowIdsListed(m, id, |drafts|);
  }

  /**
   * `r` found the order `header` with exactly one item per cart line, in cart
   * order, each copying the line's product id, name, quantity and price, and
   * the items' price-times-quantity sum is the header's total.
   */
  predicate ReadsBackAsSnapshot(r: Result<Option<OrderWithItems>, StoreCall>, header: Order, cart: seq<CartItemWithProduct>) {
    && r.Success? && r.value.Some?
    && r.value.value.order == header
    && |r.value.value.items| == |cart|
    && (forall i :: 0 <= i < |cart| ==>
          var item := r.value.value.items[i];
          && item.productId == cart[i].productId && item.productName == cart[i].product.name
          && item.quantity == cart[i].quantity && item.price == cart[i].product.price)
    && Sums.Sum(r.value.value.items, RowAmount) == header.totalAmount
  }

  /**
   * Reading back a stored order gives its header and exactly one item per
   * cart line, in cart order, each copying the line's product id, name,
   * quantity and price; the items' price-times-quantity sum is the header's total.
   */
  lemma {:induction false} StoredOrderReadsBack(st: State, owner: OwnerId, cart: seq<CartItemWithProduct>,
                                                input: CreateOrderInput, faults: set<StoreCall>, readFaults: set<StoreCall>)
    requires Wf(st)
    requires CreateOrderOutcome(st, owner, cart, input, faults).result.Success?
    requires SelectOrder !in readFaults && SelectOrderItems !in readFaults
    ensures OrdersWf(CreateOrderOutcome(st, owner, cart, input, faults).state)
    ensures var out := CreateOrderOutcome(st, owner, cart, input, faults);
      && out.result.value in out.state.orders
      && ReadsBackAsSnapshot(GetOrderById(out.state, out.result.value, owner, readFaults),
                             out.state.orders[out.result.value], cart)
  {
    var post := CreateOrderOutcome(st, owner, cart, input, faults).state;
    assert OrdersWf(post) by {
      CreateOrderKeepsWf(st, owner, cart, input, faults);
    }
    SuccessOrderTables(st, owner, cart, input, faults);
    ReadBackAfterInsert(st, post, owner, cart, input, readFaults);
  }

  /** The read-back, stated over the order tables before and after the two inserts. */
  lemma {:induction false} ReadBackAfterInsert(before: State, after: State, owner: OwnerId, cart: seq<CartItemWithProduct>,
                                               input: CreateOrderInput, readFaults: set<StoreCall>)
    requires OrdersWf(before) && OrdersWf(after)
    requires SelectOrder !in readFaults && SelectOrderItems !in readFaults
    requires after.orders == before.orders[before.nextId := NewOrder(before.nextId, owner, cart, input)]
    requires after.orderItems == InsertItems(before.orderItems, before.nextId + 1, OrderItemRows(before.nextId, cart))
    requires after.nextId == before.nextId + 1 + |cart|
    ensures before.nextId in after.orders
    ensures ReadsBackAsSnapshot(GetOrderById(after, before.nextId, owner, readFaults), after.orders[before.nextId], cart)
  {
    var id := before.nextId;
    var older := before.orderItems;
    assert forall k :: k in older ==> k <= id && older[k].orderId != id;
    ReadNewOrder(after, older, id, owner, cart, input, readFaults);
  }

  /** The order tables after a successful createOrder: the new header and its rows on top of the old ones. */
  lemma {:induction false} SuccessOrderTables(st: State, owner: OwnerId, cart: seq<CartItemWithProduct>,
                                              input: CreateOrderInput, faults: set<StoreCall>)
    requires CreateOrderOutcome(st, owner, cart, input, faults).result.Success?
    ensures var out := CreateOrderOutcome(st, owner, cart, input, faults);
      && out.result.value == st.nextId
      && out.state.orders == st.orders[st.nextId := NewOrder(st.nextId, owner, cart, input)]
      && out.state.orderItems == InsertItems(st.orderItems, st.nextId + 1, OrderItemRows(st.nextId, cart))
      && out.state.nextId == st.nextId + 1 + |cart|
  {
    CreateOrderSucceedsIff(st, owner, cart, input, faults);
    SuccessState(st, owner, cart, input, faults);
    var withHeader := WithHeader(st, owner, cart, input);
    var withItems := WithItems(withHeader, st.nextId, cart);
    var decremented := withItems.(products := ApplyDecrements(st.products, cart));
    ClearOwnerCartFrame(decremented, owner, faults);
    TablesOfSuccess(st, withHeader, withItems, decremented, owner, cart, input);
  }

  lemma {:induction false} TablesOfSuccess(st: State, withHeader: State, withItems: State, decremented: State,
                                           owner: OwnerId, cart: seq<CartItemWithProduct>, input: CreateOrderInput)
    requires withHeader == WithHeader(st, owner, cart, input)
    requires withItems == WithItems(withHeader, st.nextId, cart)
    requires decremented == withItems.(products := ApplyDecrements(st.products, cart))
    ensures decremented.orders == st.orders[st.nextId := NewOrder(st.nextId, owner, cart, input)]
    ensures decremented.orderItems == InsertItems(st.orderItems, st.nextId + 1, OrderItemRows(st.nextId, cart))
    ensures decremented.nextId == st.nextId + 1 + |cart|
  {
  }

  /** Reading back order `id` from tables whose rows for it are exactly its freshly inserted snapshot rows. */
  lemma {:induction false} ReadNewOrder(st: State, older: map<nat, OrderItem>, id: nat, owner: OwnerId,
                                        cart: seq<CartItemWithProduct>, input: CreateOrderInput, readFaults: set<StoreCall>)
    requires OrdersWf(st)
    requires SelectOrder !in readFaults && SelectOrderItems !in readFaults
    requires id in st.orders && st.orders[id] == NewOrder(id, owner, cart, input)
    requires forall k :: k in older ==> k <= id && older[k].orderId != id
    requires st.orderItems == InsertItems(older, id + 1, OrderItemRows(id, cart))
    requires st.nextId == id + 1 + |cart|
    ensures ReadsBackAsSnapshot(GetOrderById(st, id, owner, readFaults), st.orders[id], cart)
  {
    NewOrderItems(st, older, id, cart);
    FoundOrder(st, id, owner, readFaults);
    var items := OrderItemsOf(st, id);
    forall i | 0 <= i < |cart|
      ensures RowAmount(items[i]) == Sums.LineAmount(cart[i])
    {
      assert items[i] == Stamp(OrderItemRows(id, cart)[i], id + 1 + i);
    }
    Sums.SumCongruent(items, RowAmount, cart, Sums.LineAmount);
  }

  lemma {:induction false} FoundOrder(st: State, id: nat, owner: OwnerId, readFaults: set<StoreCall>)
    requires OrdersWf(st)
    requires SelectOrder !in readFaults && SelectOrderItems !in readFaults
    requires id in st.orders && st.orders[id].owner == owner
    ensures GetOrderById(st, id, owner, readFaults) == Success(Some(OrderWithItems(st.orders[id], OrderItemsOf(st, id))))
  {
  }

  /** The listed rows of the new order are its snapshot rows, one per cart line, in cart order. */
  lemma {:induction false} NewOrderItems(st: State, older: map<nat, OrderItem>, id: nat, cart: seq<CartItemWithProduct>)
    requires OrdersWf(st)
    requires forall k :: k in older ==> k <= id && older[k].orderId != id
    requires st.orderItems == InsertItems(older, id + 1, OrderItemRows(id, cart))
    requires st.nextId == id + 1 + |cart|
    ensures var items := OrderItemsOf(st, id);
      && |items| == |cart|
      && forall i :: 0 <= i < |cart| ==> items[i] == Stamp(OrderItemRows(id, cart)[i], id + 1 + i)
  {
    var drafts := OrderItemRows(id, cart);
    InsertKeepsOlderRows(st.orderItems, older, id, drafts);
    InsertPlacesDrafts(st.orderItems, older, id + 1, drafts);
    NewRowsListed(st.orderItems, id, drafts, st.nextId);
  }

  /** Inserting rows above `id` leaves the rows up to `id` as they were. */
  lemma {:induction false} InsertKeepsOlderRows(m: map<nat, OrderItem>, items: map<nat, OrderItem>, id: nat,
                                                drafts: seq<OrderItemDraft>)
    requires m == InsertItems(items, id + 1, drafts)
    requires forall k :: k in items ==> k <= id && items[k].orderId != id
    ensures forall k :: 0 <= k <= id && k in m ==> m[k].orderId != id
  {
  }

  /** The i-th draft lands under id firstId + i. */
  lemma {:induction false} InsertPlacesDrafts(m: map<nat, OrderItem>, items: map<nat, OrderItem>, firstId: nat,
                                              drafts: seq<OrderItemDraft>)
    requires m == InsertItems(items, firstId, drafts)
    ensures forall i :: 0 <= i < |drafts| ==> firstId + i in m && m[firstId + i] == Stamp(drafts[i], firstId + i)
    decreases |drafts|
  {
    if drafts != [] {
      var placed := items[firstId := Stamp(drafts[0], firstId)];
      InsertPlacesDrafts(m, placed, firstId + 1, drafts[1..]);
      forall i | 0 <= i < |drafts|
        ensures firstId + i in m && m[firstId + i] == Stamp(drafts[i], firstId + i)
      {
        if i > 0 {
          var j := i - 1;
          assert drafts[1..][j] == drafts[i];
          assert firstId + 1 + j == firstId + i;
        }
      }
    }
  }

  /**
   * With one line per product (as a real cart has), a successful order takes
   * each line's quantity off its product's stock, leaving it non-negative,
   * and leaves every other product unchanged.
   */
  lemma {:induction false} SuccessfulOrderDecrementsStock(st: State, owner: OwnerId, cart: seq<CartItemWithProduct>, input: CreateOrderInput,
                                       faults: set<StoreCall>)
    requires CreateOrderOutcome(st, owner, cart, input, faults).result.Success?
    requires forall i, j :: 0 <= i < j < |cart| ==> cart[i].productId != cart[j].productId
    ensures var out := CreateOrderOutcome(st, owner, cart, input, faults);
      && out.state.products.Keys == st.products.Keys
      && (forall i :: 0 <= i < |cart| ==>
            && cart[i].productId in st.products
            && out.state.products[cart[i].productId].stockQuantity ==
                 st.products[cart[i].productId].stockQuantity - cart[i].quantity
            && out.state.products[cart[i].productId].stockQuantity >= 0)
      && (forall p :: p in st.products && p !in ProductIds(cart) ==> out.state.products[p] == st.products[p])
  {
    SuccessState(st, owner, cart, input, faults);
    ApplyDecrementsPerLine(st.products, cart);
  }

  /**
   * After a successful order the owner has no cart lines left, unless the
   * clearing delete failed; in that case the cart is as it was and the same
   * id is still returned. Lines of other owners are untouched either way.
   */
  lemma {:induction false} SuccessfulOrderClearsCart(st: State, owner: OwnerId, cart: seq<CartItemWithProduct>, input: CreateOrderInput,
                                  faults: set<StoreCall>)
    requires CreateOrderOutcome(st, owner, cart, input, faults).result.Success?
    ensures var out := CreateOrderOutcome(st, owner, cart, input, faults);
      && (ClearCart !in faults ==> forall k :: k in out.state.cartItems ==> out.state.cartItems[k].owner != owner)
      && (ClearCart in faults ==> out.state.cartItems == st.cartItems)
      && (forall k :: k in st.cartItems && st.cartItems[k].owner != owner ==>
            k in out.state.cartItems && out.state.cartItems[k] == st.cartItems[k])
    ensures CreateOrderOutcome(st, owner, cart, input, faults + {ClearCart}).result ==
      CreateOrderOutcome(st, owner, cart, input, faults - {ClearCart}).result
  {
    SuccessState(st, owner, cart, input, faults);
    CreateOrderSucceedsIff(st, owner, cart, input, faults);
    CreateOrderSucceedsIff(st, owner, cart, input, faults + {ClearCart});
    CreateOrderSucceedsIff(st, owner, cart, input, faults - {ClearCart});
  }

  /** Deleting the new header again, before any row was inserted, leaves only the id counter moved. */
  lemma {:induction false} CompensationUndoesHeader(st: State, owner: OwnerId, cart: seq<CartItemWithProduct>, input: CreateOrderInput)
    requires OrdersWf(st)
    ensures DeleteOrderCascade(WithHeader(st, owner, cart, input), st.nextId) == st.(nextId := st.nextId + 1)
  {
    var h := WithHeader(st, owner, cart, input);
    assert DeleteOrderCascade(h, st.nextId).orders == st.orders;
    assert DeleteOrderCascade(h, st.nextId).orderItems == st.orderItems;
  }

  /** Deleting the new header again after its rows were inserted removes it and its rows and nothing else. */
  lemma {:induction false} CompensationUndoesInserts(st: State, owner: OwnerId, cart: seq<CartItemWithProduct>, input: CreateOrderInput,
                                  products: map<ProductId, Product>)
    requires OrdersWf(st)
    ensures DeleteOrderCascade(WithItems(WithHeader(st, owner, cart, input), st.nextId, cart).(products := products),
                               st.nextId) ==
      st.(products := products, nextId := st.nextId + 1 + |cart|)
  {
    var id := st.nextId;
    var h := WithHeader(st, owner, cart, input);
    var w := WithItems(h, id, cart).(products := products);
    InsertedRowsBelongTo(w.orderItems, st.orderItems, id, cart);
    assert DeleteOrderCascade(w, id).orders == st.orders;
    CascadeDropsNewRows(w.orderItems, DeleteOrderCascade(w, id).orderItems, st.orderItems, id, |cart|);
  }

  /** Dropping the rows of order `id` from the old rows plus its new block leaves the old rows. */
  lemma {:induction false} CascadeDropsNewRows(m: map<nat, OrderItem>, kept: map<nat, OrderItem>,
                                               older: map<nat, OrderItem>, id: nat, n: nat)
    requires forall k :: k in older ==> k <= id && older[k].orderId != id
    requires forall k :: k in m <==> k in older || id + 1 <= k < id + 1 + n
    requires forall k :: k in older ==> m[k] == older[k]
    requires forall k :: id + 1 <= k < id + 1 + n ==> m[k].orderId == id
    requires forall k :: k in kept <==> k in m && m[k].orderId != id
    requires forall k :: k in kept ==> kept[k] == m[k]
    ensures kept == older
  {
  }

  /** The rows inserted for order `id` all carry its id. */
  lemma {:induction false} InsertedRowsBelongTo(m: map<nat, OrderItem>, older: map<nat, OrderItem>, id: nat,
                                                cart: seq<CartItemWithProduct>)
    requires m == InsertItems(older, id + 1, OrderItemRows(id, cart))
    ensures forall k :: id + 1 <= k < id + 1 + |cart| ==> m[k].orderId == id
  {
    var drafts := OrderItemRows(id, cart);
    InsertPlacesDrafts(m, older, id + 1, drafts);
    forall k | id + 1 <= k < id + 1 + |cart|
      ensures m[k].orderId == id
    {
      var i := k - (id + 1);
      assert id + 1 + i == k;
      assert m[id + 1 + i] == Stamp(drafts[i], id + 1 + i);
    }
  }

  /**
   * A failed item insert deletes the header again: when that delete goes
   * through, only the id counter has moved and no orphan header remains.
   */
  lemma {:induction false} ItemsInsertFailureLeavesNoOrphan(st: State, owner: OwnerId, cart: seq<CartItemWithProduct>,
                                         input: CreateOrderInput, faults: set<StoreCall>)
    requires Wf(st)
    requires |cart| > 0 && forall j :: 0 <= j < |cart| ==> LineRejection(st.products, cart[j], j, faults).None?
    requires InsertOrder !in faults && InsertOrderItems in faults && DeleteOrder !in faults
    ensures CreateOrderOutcome(st, owner, cart, input, faults) ==
      Step(Failure(OrderItemsInsertFailed), st.(nextId := st.nextId + 1))
  {
    CompensationUndoesHeader(st, owner, cart, input);
  }

  /**
   * A failed decrement of line d deletes the header and its rows again; the
   * decrements of the lines before d stay applied.
   */
  lemma {:induction false} DecrementFailureKeepsEarlierDecrements(st: State, owner: OwnerId, cart: seq<CartItemWithProduct>,
                                               input: CreateOrderInput, faults: set<StoreCall>, d: nat)
    requires Wf(st)
    requires |cart| > 0 && forall j :: 0 <= j < |cart| ==> LineRejection(st.products, cart[j], j, faults).None?
    requires InsertOrder !in faults && InsertOrderItems !in faults && DeleteOrder !in faults
    requires d < |cart| && DecrementStock(d) in faults && forall j :: 0 <= j < d ==> DecrementStock(j) !in faults
    ensures CreateOrderOutcome(st, owner, cart, input, faults) ==
      Step(Failure(StockDecrementFailed),
           st.(products := ApplyDecrements(st.products, cart[..d]), nextId := st.nextId + 1 + |cart|))
  {
    FirstDecrementIs(cart, faults, d);
    CompensationUndoesInserts(st, owner, cart, input, ApplyDecrements(st.products, cart[..d]));
  }

  /**
   * When the compensating delete itself fails (its error is not checked),
   * the call still fails but the header stays behind.
   */
  lemma {:induction false} FailedCompensationLeavesHeader(st: State, owner: OwnerId, cart: seq<CartItemWithProduct>,
                                       input: CreateOrderInput, faults: set<StoreCall>)
    requires |cart| > 0 && forall j :: 0 <= j < |cart| ==> LineRejection(st.products, cart[j], j, faults).None?
    requires InsertOrder !in faults && InsertOrderItems in faults && DeleteOrder in faults
    ensures var out := CreateOrderOutcome(st, owner, cart, input, faults);
      && out.result == Failure(OrderItemsInsertFailed)
      && out.state.orders == st.orders[st.nextId := NewOrder(st.nextId, owner, cart, input)]
  {
  }
}

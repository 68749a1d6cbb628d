/**
 * The relational store behind the storefront: the `products`, `cart_items`,
 * `orders` and `order_items` tables, held by one `Store` object whose maps
 * the server actions and queries update in place. `State` is the value of
 * those tables at one moment, so that specifications can speak of the
 * tables before and after an operation.
 */
module Database {
  import opened Types
  import Tables

  datatype State = State(
    products: map<ProductId, Product>,
    cartItems: map<nat, CartLine>,
    orders: map<nat, Order>,
    orderItems: map<nat, OrderItem>,
    nextId: nat)

  /** The result of an operation together with the tables it leaves behind. */
  datatype Step<+R> = Step(result: R, state: State)

  /** Products are keyed by their id. */
  predicate ProductsWf(products: map<ProductId, Product>) {
    forall p :: p in products ==> products[p].id == p
  }

  /**
   * Cart lines: keyed and stamped by the id counter, referring to an existing
   * product, and at most one line per (owner, product).
   */
  predicate CartWf(st: State) {
    && (forall k :: k in st.cartItems ==>
          && k < st.nextId
          && st.cartItems[k].id == k
          && st.cartItems[k].createdAt == k
          && st.cartItems[k].productId in st.products)
    && (forall a, b ::
          a in st.cartItems && b in st.cartItems &&
          st.cartItems[a].owner == st.cartItems[b].owner &&
          st.cartItems[a].productId == st.cartItems[b].productId
          ==> a == b)
  }

  /** Orders and their items: keyed and stamped by the id counter; every item belongs to an order. */
  predicate OrdersWf(st: State) {
    && (forall k :: k in st.orders ==>
          k < st.nextId && st.orders[k].id == k && st.orders[k].createdAt == k)
    && (forall k :: k in st.orderItems ==>
          && k < st.nextId
          && st.orderItems[k].id == k
          && st.orderItems[k].createdAt == k
          && st.orderItems[k].orderId in st.orders)
  }

  /** The integrity the database maintains (keys, foreign keys, one line per owner and product). */
  predicate Wf(st: State) {
    ProductsWf(st.products) && CartWf(st) && OrdersWf(st)
  }

  class Store {
    var products: map<ProductId, Product>
    var cartItems: map<nat, CartLine>
    var orders: map<nat, Order>
    var orderItems: map<nat, OrderItem>
    var nextId: nat

    function Snapshot(): State
      reads this
    {
      State(products, cartItems, orders, orderItems, nextId)
    }

    ghost predicate Valid()
      reads this
    {
      Wf(Snapshot())
    }

    constructor (init: State)
      requires Wf(init)
      ensures Valid() && Snapshot() == init
    {
      products, cartItems, orders, orderItems, nextId :=
        init.products, init.cartItems, init.orders, init.orderItems, init.nextId;
    }
  }

  /** Selection filters, named so that every use denotes the same function. */
  function OwnedBy(owner: OwnerId): CartLine -> bool {
    (l: CartLine) => l.owner == owner
  }

  function LineFor(owner: OwnerId, productId: ProductId): CartLine -> bool {
    (l: CartLine) => l.owner == owner && l.productId == productId
  }

  function PlacedBy(owner: OwnerId): Order -> bool {
    (o: Order) => o.owner == owner
  }

  function PartOf(orderId: nat): OrderItem -> bool {
    (i: OrderItem) => i.orderId == orderId
  }

  /**
   * The line of `owner` for product `productId`, as the lookup
   * `eq("clerk_id", owner).eq("product_id", productId).maybeSingle()` finds it.
   */
  function FindLine(st: State, owner: OwnerId, productId: ProductId): (r: Option<nat>)
    ensures r.Some? ==>
      r.value in st.cartItems && st.cartItems[r.value].owner == owner && st.cartItems[r.value].productId == productId
    ensures r.None? ==> forall k :: k in st.cartItems && k < st.nextId ==>
      !(st.cartItems[k].owner == owner && st.cartItems[k].productId == productId)
  {
    var ids := Tables.Ascending(st.cartItems, LineFor(owner, productId), st.nextId);
    if ids == [] then
      Tables.AscendingNoneKept(st.cartItems, LineFor(owner, productId), st.nextId);
      None
    else Some(ids[0])
  }

  /** The cart lines that do not belong to `owner` (after `delete().eq("clerk_id", owner)`). */
  function WithoutOwner(lines: map<nat, CartLine>, owner: OwnerId): (r: map<nat, CartLine>)
    ensures forall k :: k in r <==> k in lines && lines[k].owner != owner
    ensures forall k :: k in r ==> r[k] == lines[k]
  {
    map k | k in lines && lines[k].owner != owner :: lines[k]
  }

  /**
   * The `decrement_stock` procedure (defined in the database, not in this
   * repository), when it succeeds: the product's stock drops by `quantity`;
   * an unknown product is left alone.
   */
  function Decrement(products: map<ProductId, Product>, productId: ProductId, quantity: int): (r: map<ProductId, Product>)
    ensures r.Keys == products.Keys
    ensures productId in products ==>
      r[productId] == products[productId].(stockQuantity := products[productId].stockQuantity - quantity)
    ensures forall p :: p in products && p != productId ==> r[p] == products[p]
  {
    if productId in products then
      products[productId := products[productId].(stockQuantity := products[productId].stockQuantity - quantity)]
    else products
  }

  /** Deleting an order header; its items go with it (ON DELETE CASCADE). */
  function DeleteOrderCascade(st: State, orderId: nat): (r: State)
    ensures r.orders.Keys == st.orders.Keys - {orderId}
    ensures forall k :: k in r.orders ==> r.orders[k] == st.orders[k]
    ensures forall k :: k in r.orderItems <==> k in st.orderItems && st.orderItems[k].orderId != orderId
    ensures forall k :: k in r.orderItems ==> r.orderItems[k] == st.orderItems[k]
    ensures r.products == st.products && r.cartItems == st.cartItems && r.nextId == st.nextId
  {
    st.(orders := map k | k in st.orders && k != orderId :: st.orders[k],
        orderItems := map k | k in st.orderItems && st.orderItems[k].orderId != orderId :: st.orderItems[k])
  }
}

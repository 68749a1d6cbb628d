/**
 * actions/cart.ts: the cart server actions. Each state-changing action is a
 * method that reads and writes the `Store` step by step, proved equal to an
 * `...Outcome` function of the tables before the call; the lemmas below
 * state what the actions promise in terms of those functions.
 *
 * The caller's identity is an `Option<OwnerId>` (None: not signed in), and
 * `faults` is the set of store calls that fail during the run.
 */
module CartActions {
  import opened Types
  import opened Database
  import CartQueries

  // ---------------------------------------------------------------- addToCart

  function AddToCartOutcome(st: State, owner: Option<OwnerId>, productId: ProductId, quantity: int,
                            faults: set<StoreCall>): Step<CartActionResult>
  {
    if owner.None? then Step(CartFail(Unauthenticated), st)
    else if SelectProduct in faults || productId !in st.products then Step(CartFail(ProductNotFound), st)
    else if !st.products[productId].isActive then Step(CartFail(ProductInactive), st)
    else if SelectCartLine in faults then Step(CartFail(CartLookupFailed), st)
    else
      var stock := st.products[productId].stockQuantity;
      match FindLine(st, owner.value, productId)
      case Some(k) =>
        var newQuantity := st.cartItems[k].quantity + quantity;
        if newQuantity > stock then Step(CartFail(InsufficientStock(stock)), st)
        else if UpdateCartLine in faults then Step(CartFail(QuantityUpdateFailed), st)
        else Step(CartOk(Some(k)), st.(cartItems := st.cartItems[k := st.cartItems[k].(quantity := newQuantity)]))
      case None =>
        if quantity > stock then Step(CartFail(InsufficientStock(stock)), st)
        else if InsertCartLine in faults then Step(CartFail(AddFailed), st)
        else
          var id := st.nextId;
          Step(CartOk(Some(id)),
               st.(cartItems := st.cartItems[id := CartLine(id, owner.value, productId, quantity, id)],
                   nextId := id + 1))
  }

  method AddToCart(s: Store, owner: Option<OwnerId>, productId: ProductId, quantity: int, faults: set<StoreCall>)
      returns (r: CartActionResult)
    requires s.Valid()
    modifies s
    ensures s.Valid()
    ensures Step(r, s.Snapshot()) == AddToCartOutcome(old(s.Snapshot()), owner, productId, quantity, faults)
  {
    if owner.None? {
      return CartFail(Unauthenticated);
    }
    var clerkId := owner.value;
    // product lookup
    if SelectProduct in faults || productId !in s.products {
      return CartFail(ProductNotFound);
    }
    var product := s.products[productId];
    if !product.isActive {
      return CartFail(ProductInactive);
    }
    // existing line lookup
    if SelectCartLine in faults {
      return CartFail(CartLookupFailed);
    }
    var existing := FindLine(s.Snapshot(), clerkId, productId);
    if existing.Some? {
      var k := existing.value;
      var newQuantity := s.cartItems[k].quantity + quantity;
      if newQuantity > product.stockQuantity {
        return CartFail(InsufficientStock(product.stockQuantity));
      }
      if UpdateCartLine in faults {
        return CartFail(QuantityUpdateFailed);
      }
      UpdateLineQuantity(s, k, newQuantity);
      r := CartOk(Some(k));
      AddToCartKeepsWf(old(s.Snapshot()), owner, productId, quantity, faults);
    } else {
      if quantity > product.stockQuantity {
        return CartFail(InsufficientStock(product.stockQuantity));
      }
      if InsertCartLine in faults {
        return CartFail(AddFailed);
      }
      var id := InsertLine(s, clerkId, productId, quantity);
      r := CartOk(Some(id));
      AddToCartKeepsWf(old(s.Snapshot()), owner, productId, quantity, faults);
    }
  }

  /** `update({ quantity }).eq("id", k)`: that line's quantity, nothing else. */
  method UpdateLineQuantity(s: Store, k: nat, quantity: int)
    requires k in s.cartItems
    modifies s
    ensures s.Snapshot() == old(s.Snapshot()).(cartItems := old(s.cartItems)[k := old(s.cartItems[k]).(quantity := quantity)])
  {
    s.cartItems := s.cartItems[k := s.cartItems[k].(quantity := quantity)];
  }

  /** `insert({ clerk_id, product_id, quantity })`: a new line under the next id. */
  method InsertLine(s: Store, owner: OwnerId, productId: ProductId, quantity: int) returns (id: nat)
    modifies s
    ensures id == old(s.nextId)
    ensures s.Snapshot() == old(s.Snapshot()).(cartItems := old(s.cartItems)[id := CartLine(id, owner, productId, quantity, id)],
                                                nextId := id + 1)
  {
    id := s.nextId;
    s.cartItems := s.cartItems[id := CartLine(id, owner, productId, quantity, id)];
    s.nextId := id + 1;
  }

  /** The line lookup finds the owner's line for the product whenever one exists. */
  lemma {:induction false} FindLineComplete(st: State, owner: OwnerId, productId: ProductId, k: nat)
    requires Wf(st)
    requires k in st.cartItems && st.cartItems[k].owner == owner && st.cartItems[k].productId == productId
    ensures FindLine(st, owner, productId) == Some(k)
  {
  }

  /** addToCart keeps the tables well formed; in particular it never creates a second line for one (owner, product). */
  lemma {:induction false} AddToCartKeepsWf(st: State, owner: Option<OwnerId>, productId: ProductId, quantity: int, faults: set<StoreCall>)
    requires Wf(st)
    ensures Wf(AddToCartOutcome(st, owner, productId, quantity, faults).state)
  {
    var out := AddToCartOutcome(st, owner, productId, quantity, faults).state;
    if out != st && owner.Some? && FindLine(st, owner.value, productId).None? {
      var id := st.nextId;
      assert out.cartItems == st.cartItems[id := CartLine(id, owner.value, productId, quantity, id)];
    }
  }

  /** Every failure of addToCart leaves the tables as they were. */
  lemma {:induction false} AddToCartFailureWritesNothing(st: State, owner: Option<OwnerId>, productId: ProductId, quantity: int,
                                      faults: set<StoreCall>)
    ensures AddToCartOutcome(st, owner, productId, quantity, faults).result.CartFail? ==>
      AddToCartOutcome(st, owner, productId, quantity, faults).state == st
  {
  }

  /** A missing or inactive product is refused before cart_items is read or written. */
  lemma {:induction false} AddToCartChecksProductFirst(st: State, owner: OwnerId, productId: ProductId, quantity: int,
                                    faults: set<StoreCall>)
    ensures var out := AddToCartOutcome(st, Some(owner), productId, quantity, faults);
      && (SelectProduct in faults || productId !in st.products ==> out == Step(CartFail(ProductNotFound), st))
      && (SelectProduct !in faults && productId in st.products && !st.products[productId].isActive ==>
            out == Step(CartFail(ProductInactive), st))
  {
  }

  /**
   * With a line already present for (owner, product), addToCart adds the
   * requested quantity onto that same line and returns its id, or refuses
   * without change when the sum exceeds the stock.
   */
  lemma {:induction false} AddToCartMergesIntoExistingLine(st: State, owner: OwnerId, productId: ProductId, quantity: int,
                                        faults: set<StoreCall>, k: nat)
    requires Wf(st)
    requires k in st.cartItems && st.cartItems[k].owner == owner && st.cartItems[k].productId == productId
    requires SelectProduct !in faults && productId in st.products && st.products[productId].isActive
    requires SelectCartLine !in faults
    ensures var out := AddToCartOutcome(st, Some(owner), productId, quantity, faults);
      var newQuantity := st.cartItems[k].quantity + quantity;
      var stock := st.products[productId].stockQuantity;
      && (newQuantity > stock ==> out == Step(CartFail(InsufficientStock(stock)), st))
      && (newQuantity <= stock && UpdateCartLine !in faults ==>
            out.result == CartOk(Some(k)) &&
            out.state == st.(cartItems := st.cartItems[k := st.cartItems[k].(quantity := newQuantity)]))
  {
    FindLineComplete(st, owner, productId, k);
  }

  /**
   * With no line for (owner, product), addToCart inserts one holding exactly the
   * requested quantity, under a fresh id it returns, only if that quantity fits the stock.
   */
  lemma {:induction false} AddToCartInsertsNewLine(st: State, owner: OwnerId, productId: ProductId, quantity: int,
                                faults: set<StoreCall>)
    requires Wf(st)
    requires forall k :: k in st.cartItems ==> !(st.cartItems[k].owner == owner && st.cartItems[k].productId == productId)
    requires SelectProduct !in faults && productId in st.products && st.products[productId].isActive
    requires SelectCartLine !in faults
    ensures var out := AddToCartOutcome(st, Some(owner), productId, quantity, faults);
      var stock := st.products[productId].stockQuantity;
      && (quantity > stock ==> out == Step(CartFail(InsufficientStock(stock)), st))
      && (quantity <= stock && InsertCartLine !in faults ==>
            && out.result == CartOk(Some(st.nextId))
            && st.nextId !in st.cartItems
            && out.state.cartItems == st.cartItems[st.nextId := CartLine(st.nextId, owner, productId, quantity, st.nextId)])
  {
  }

  // ----------------------------------------------------------- removeFromCart

  function RemoveFromCartOutcome(st: State, owner: Option<OwnerId>, cartItemId: nat, faults: set<StoreCall>)
    : Step<CartActionResult>
  {
    if owner.None? then Step(CartFail(Unauthenticated), st)
    else if DeleteCartLine in faults then Step(CartFail(RemoveFailed), st)
    else
      var remaining := map k | k in st.cartItems && !(k == cartItemId && st.cartItems[k].owner == owner.value) :: st.cartItems[k];
      Step(CartOk(None), st.(cartItems := remaining))
  }

  method RemoveFromCart(s: Store, owner: Option<OwnerId>, cartItemId: nat, faults: set<StoreCall>)
      returns (r: CartActionResult)
    requires s.Valid()
    modifies s
    ensures s.Valid()
    ensures Step(r, s.Snapshot()) == RemoveFromCartOutcome(old(s.Snapshot()), owner, cartItemId, faults)
  {
    if owner.None? {
      return CartFail(Unauthenticated);
    }
    if DeleteCartLine in faults {
      return CartFail(RemoveFailed);
    }
    // delete().eq("id", cartItemId).eq("clerk_id", owner)
    s.cartItems := map k | k in s.cartItems && !(k == cartItemId && s.cartItems[k].owner == owner.value) :: s.cartItems[k];
    r := CartOk(None);
  }

  /**
   * removeFromCart deletes the line only when both its id and its owner match;
   * a missing or foreign id still succeeds and changes nothing.
   */
  lemma {:induction false} RemoveDeletesOnlyOwnedLine(st: State, owner: OwnerId, cartItemId: nat, faults: set<StoreCall>)
    requires DeleteCartLine !in faults
    ensures var out := RemoveFromCartOutcome(st, Some(owner), cartItemId, faults);
      && out.result == CartOk(None)
      && (cartItemId in st.cartItems && st.cartItems[cartItemId].owner == owner ==>
            out.state == st.(cartItems := st.cartItems - {cartItemId}))
      && (cartItemId !in st.cartItems || st.cartItems[cartItemId].owner != owner ==> out.state == st)
  {
    var out := RemoveFromCartOutcome(st, Some(owner), cartItemId, faults);
    if cartItemId in st.cartItems && st.cartItems[cartItemId].owner == owner {
      assert out.state.cartItems == st.cartItems - {cartItemId};
    } else {
      assert out.state.cartItems == st.cartItems;
    }
  }

  /** Removing twice is the same as removing once, and both calls succeed. */
  lemma {:induction false} RemoveIsIdempotent(st: State, owner: OwnerId, cartItemId: nat, faults: set<StoreCall>)
    requires DeleteCartLine !in faults
    ensures var once := RemoveFromCartOutcome(st, Some(owner), cartItemId, faults);
      RemoveFromCartOutcome(once.state, Some(owner), cartItemId, faults) == Step(CartOk(None), once.state)
  {
    var once := RemoveFromCartOutcome(st, Some(owner), cartItemId, faults);
    RemoveDeletesOnlyOwnedLine(st, owner, cartItemId, faults);
    RemoveDeletesOnlyOwnedLine(once.state, owner, cartItemId, faults);
  }

  // ------------------------------------------------------- updateCartQuantity

  function UpdateCartQuantityOutcome(st: State, owner: Option<OwnerId>, cartItemId: nat, quantity: int,
                                     faults: set<StoreCall>): Step<CartActionResult>
  {
    if quantity < 1 then Step(CartFail(InvalidQuantity), st)
    else if owner.None? then Step(CartFail(Unauthenticated), st)
    else if SelectCartLine in faults || cartItemId !in st.cartItems || st.cartItems[cartItemId].owner != owner.value then
      Step(CartFail(CartLineNotFound), st)
    else
      var productId := st.cartItems[cartItemId].productId;
      if SelectProduct in faults || productId !in st.products then Step(CartFail(ProductInfoNotFound), st)
      else
        var stock := st.products[productId].stockQuantity;
        if quantity > stock then Step(CartFail(InsufficientStock(stock)), st)
        else if UpdateCartLine in faults then Step(CartFail(QuantityChangeFailed), st)
        else Step(CartOk(None), st.(cartItems := st.cartItems[cartItemId := st.cartItems[cartItemId].(quantity := quantity)]))
  }

  method UpdateCartQuantity(s: Store, owner: Option<OwnerId>, cartItemId: nat, quantity: int, faults: set<StoreCall>)
      returns (r: CartActionResult)
    requires s.Valid()
    modifies s
    ensures s.Valid()
    ensures Step(r, s.Snapshot()) == UpdateCartQuantityOutcome(old(s.Snapshot()), owner, cartItemId, quantity, faults)
  {
    if quantity < 1 {
      return CartFail(InvalidQuantity);
    }
    if owner.None? {
      return CartFail(Unauthenticated);
    }
    // ownership lookup: eq("id", cartItemId).eq("clerk_id", owner).single()
    if SelectCartLine in faults || cartItemId !in s.cartItems || s.cartItems[cartItemId].owner != owner.value {
      return CartFail(CartLineNotFound);
    }
    var productId := s.cartItems[cartItemId].productId;
    // stock lookup
    if SelectProduct in faults || productId !in s.products {
      return CartFail(ProductInfoNotFound);
    }
    var stock := s.products[productId].stockQuantity;
    if quantity > stock {
      return CartFail(InsufficientStock(stock));
    }
    if UpdateCartLine in faults {
      return CartFail(QuantityChangeFailed);
    }
    s.cartItems := s.cartItems[cartItemId := s.cartItems[cartItemId].(quantity := quantity)];
    r := CartOk(None);
  }

  /** A quantity below one is refused before anything else, signed in or not. */
  lemma {:induction false} UpdateRejectsQuantityBelowOneFirst(st: State, owner: Option<OwnerId>, cartItemId: nat, quantity: int,
                                           faults: set<StoreCall>)
    requires quantity < 1
    ensures UpdateCartQuantityOutcome(st, owner, cartItemId, quantity, faults) == Step(CartFail(InvalidQuantity), st)
  {
  }

  /**
   * updateCartQuantity succeeds exactly when the line is the caller's, its
   * product is found, the quantity is within 1..stock and the write goes
   * through; it then sets exactly that quantity on exactly that line.
   */
  lemma {:induction false} UpdateSetsExactlyThatLine(st: State, owner: Option<OwnerId>, cartItemId: nat, quantity: int,
                                  faults: set<StoreCall>)
    ensures var out := UpdateCartQuantityOutcome(st, owner, cartItemId, quantity, faults);
      out.result.CartOk? <==>
        && quantity >= 1 && owner.Some?
        && SelectCartLine !in faults && cartItemId in st.cartItems && st.cartItems[cartItemId].owner == owner.value
        && SelectProduct !in faults && st.cartItems[cartItemId].productId in st.products
        && quantity <= st.products[st.cartItems[cartItemId].productId].stockQuantity
        && UpdateCartLine !in faults
    ensures var out := UpdateCartQuantityOutcome(st, owner, cartItemId, quantity, faults);
      out.result.CartOk? ==>
        && out.state.products == st.products && out.state.orders == st.orders
        && out.state.orderItems == st.orderItems && out.state.nextId == st.nextId
        && out.state.cartItems.Keys == st.cartItems.Keys
        && out.state.cartItems[cartItemId] == st.cartItems[cartItemId].(quantity := quantity)
        && forall k :: k in st.cartItems && k != cartItemId ==> out.state.cartItems[k] == st.cartItems[k]
    ensures var out := UpdateCartQuantityOutcome(st, owner, cartItemId, quantity, faults);
      out.result.CartFail? ==> out.state == st
  {
  }

  /**
   * Without identity every writing cart action fails with nothing written
   * (updateCartQuantity only once its quantity check has passed), while the
   * listing reads as empty.
   */
  lemma {:induction false} NoIdentityWritesNothing(st: State, productId: ProductId, cartItemId: nat, quantity: int,
                                                   faults: set<StoreCall>)
    requires CartWf(st)
    ensures AddToCartOutcome(st, None, productId, quantity, faults) == Step(CartFail(Unauthenticated), st)
    ensures RemoveFromCartOutcome(st, None, cartItemId, faults) == Step(CartFail(Unauthenticated), st)
    ensures quantity >= 1 ==>
      UpdateCartQuantityOutcome(st, None, cartItemId, quantity, faults) == Step(CartFail(Unauthenticated), st)
    ensures GetCartItems(st, None, faults) == Success([])
  {
  }

  // ------------------------------------------------------------- getCartItems

  /** getCartItems: no identity gives an empty list; otherwise the joined listing, which throws on a store error. */
  function GetCartItems(st: State, owner: Option<OwnerId>, faults: set<StoreCall>)
    : (r: Result<seq<CartItemWithProduct>, StoreCall>)
    requires CartWf(st)
    ensures owner.None? ==> r == Success([])
    ensures owner.Some? ==> r == CartQueries.GetCartItemsWithProducts(st, owner.value, faults)
  {
    if owner.None? then Success([]) else CartQueries.GetCartItemsWithProducts(st, owner.value, faults)
  }
}

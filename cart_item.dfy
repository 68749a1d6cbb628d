/**
 * components/cart/cart-item.tsx: one line of the cart page. The row total and
 * stock flags are expressions; `handleQuantityChange` guards the new quantity
 * on the client, then brackets the server call with the `isUpdating` flag.
 */
module CartItem {
  import opened Types
  import opened Database
  import Sums
  import Numbers
  import CartActions
  import CartSummary

  /** itemTotal: the row's price times quantity. */
  function ItemTotal(item: CartItemWithProduct): int {
    item.product.price * item.quantity
  }

  predicate IsOutOfStock(p: Product) {
    p.stockQuantity == 0
  }

  predicate IsLowStock(p: Product) {
    p.stockQuantity < 10 && p.stockQuantity > 0
  }

  /** A product is never flagged both low on stock and out of stock. */
  lemma {:induction false} StockFlagsExclusive(p: Product)
    ensures !(IsOutOfStock(p) && IsLowStock(p))
    ensures IsOutOfStock(p) <==> p.stockQuantity == 0
    ensures IsLowStock(p) <==> 0 < p.stockQuantity < 10
  {
  }

  /** The row totals of the cart page add up to the summary's total price. */
  lemma {:induction false} RowTotalsSumToSummary(items: seq<CartItemWithProduct>)
    ensures Sums.Sum(items, ItemTotal) == CartSummary.TotalPrice(items)
  {
    Sums.SumCongruent(items, ItemTotal, items, Sums.LineAmount);
  }

  /** What the client-side guards of `handleQuantityChange` do with a new quantity. */
  datatype GuardOutcome = Ignore | TooMany | Send

  function Guard(newQuantity: int, stock: int): (g: GuardOutcome)
    ensures g == Ignore <==> newQuantity < 1
    ensures g == TooMany <==> 1 <= newQuantity && stock < newQuantity
    ensures g == Send <==> 1 <= newQuantity <= stock
  {
    if newQuantity < 1 then Ignore
    else if newQuantity > stock then TooMany
    else Send
  }

  /** The "−" button: disabled while updating or at quantity one or below. */
  predicate DecrementDisabled(isUpdating: bool, quantity: int) {
    isUpdating || quantity <= 1
  }

  /** The "+" button: disabled while updating or once the quantity reaches the stock. */
  predicate IncrementDisabled(isUpdating: bool, quantity: int, stock: int) {
    isUpdating || quantity >= stock
  }

  /**
   * An enabled "−" button is never silently ignored; it sends its quantity
   * unless the line already holds more than the stock plus one.
   */
  lemma {:induction false} EnabledDecrementIsNotIgnored(quantity: int, stock: int)
    requires !DecrementDisabled(false, quantity)
    ensures Guard(quantity - 1, stock) != Ignore
    ensures Guard(quantity - 1, stock) == Send <==> quantity - 1 <= stock
  {
  }

  /** An enabled "+" button on a line with a non-negative quantity always reaches the server. */
  lemma {:induction false} EnabledIncrementSends(quantity: int, stock: int)
    requires !IncrementDisabled(false, quantity, stock)
    requires quantity >= 0
    ensures Guard(quantity + 1, stock) == Send
  {
  }

  /**
   * A quantity the client sends always passes the server's `quantity < 1`
   * check, and, if the client's stock is the product's current stock, its
   * stock check too.
   */
  lemma {:induction false} SentQuantityPassesServerChecks(st: State, owner: Option<OwnerId>, item: CartItemWithProduct,
                                                         newQuantity: int, faults: set<StoreCall>)
    requires Guard(newQuantity, item.product.stockQuantity) == Send
    ensures var r := CartActions.UpdateCartQuantityOutcome(st, owner, item.id, newQuantity, faults).result;
      r != CartFail(InvalidQuantity)
    ensures var r := CartActions.UpdateCartQuantityOutcome(st, owner, item.id, newQuantity, faults).result;
      item.id in st.cartItems && st.cartItems[item.id].productId in st.products
        && st.products[st.cartItems[item.id].productId].stockQuantity == item.product.stockQuantity
      ==> !r.CartFail? || !r.error.InsufficientStock?
  {
  }

  const StockPrefix: string := "재고가 부족합니다. (최대: "
  const StockSuffix: string := "개)"
  const QuantityFallback: string := "수량 변경 중 오류가 발생했습니다."

  /** The message shown when the new quantity exceeds the stock. */
  function StockMessage(stock: int): string {
    StockPrefix + Numbers.IntToString(stock) + StockSuffix
  }

  /** How the awaited `updateCartQuantity` call came back. */
  datatype UpdateResponse = Updated | Rejected(error: string) | Threw

  /** One `updateCartQuantity(item.id, newQuantity)` call, with the flag as it stood during the call. */
  datatype ServerCall = ServerCall(cartItemId: nat, quantity: int, whileUpdating: bool)

  class CartItemView {
    const item: CartItemWithProduct
    var isUpdating: bool
    var errorMessage: Option<string>
    /** The server calls made so far, oldest first. */
    var calls: seq<ServerCall>
    /** How often `onUpdate` has been called. */
    var refreshes: nat

    constructor (item: CartItemWithProduct)
      ensures this.item == item
      ensures !isUpdating && errorMessage == None && calls == [] && refreshes == 0
    {
      this.item := item;
      isUpdating := false;
      errorMessage := None;
      calls := [];
      refreshes := 0;
    }

    /**
     * handleQuantityChange, with the server's answer as a parameter: an
     * ignored quantity changes nothing, too large a quantity only sets the
     * stock message, and a sent quantity makes exactly one call, then leaves
     * `isUpdating` false whatever the answer.
     */
    method HandleQuantityChange(newQuantity: int, response: UpdateResponse)
      modifies this
      ensures Guard(newQuantity, item.product.stockQuantity) == Ignore ==>
        isUpdating == old(isUpdating) && errorMessage == old(errorMessage)
        && calls == old(calls) && refreshes == old(refreshes)
      ensures Guard(newQuantity, item.product.stockQuantity) == TooMany ==>
        isUpdating == old(isUpdating) && errorMessage == Some(StockMessage(item.product.stockQuantity))
        && calls == old(calls) && refreshes == old(refreshes)
      ensures Guard(newQuantity, item.product.stockQuantity) == Send ==>
        && !isUpdating
        && calls == old(calls) + [ServerCall(item.id, newQuantity, true)]
        && (response.Updated? ==> errorMessage == None && refreshes == old(refreshes) + 1)
        && (response.Rejected? ==> errorMessage == Some(response.error) && refreshes == old(refreshes))
        && (response.Threw? ==> errorMessage == Some(QuantityFallback) && refreshes == old(refreshes))
    {
      if newQuantity < 1 {
        return;
      }
      if newQuantity > item.product.stockQuantity {
        errorMessage := Some(StockMessage(item.product.stockQuantity));
        return;
      }
      isUpdating := true;
      errorMessage := None;
      calls := calls + [ServerCall(item.id, newQuantity, isUpdating)];
      match response {
        case Updated => refreshes := refreshes + 1;
        case Rejected(e) => errorMessage := Some(e);
        case Threw => errorMessage := Some(QuantityFallback);
      }
      isUpdating := false;
    }

    /** A click on an enabled "+" button sends quantity + 1 once. */
    method ClickIncrement(response: UpdateResponse)
      requires !IncrementDisabled(isUpdating, item.quantity, item.product.stockQuantity)
      requires item.quantity >= 0
      modifies this
      ensures !isUpdating
      ensures calls == old(calls) + [ServerCall(item.id, item.quantity + 1, true)]
    {
      EnabledIncrementSends(item.quantity, item.product.stockQuantity);
      HandleQuantityChange(item.quantity + 1, response);
    }

    /** A click on an enabled "−" button sends quantity − 1, or shows the stock message. */
    method ClickDecrement(response: UpdateResponse)
      requires !DecrementDisabled(isUpdating, item.quantity)
      modifies this
      ensures item.quantity - 1 <= item.product.stockQuantity ==>
        !isUpdating && calls == old(calls) + [ServerCall(item.id, item.quantity - 1, true)]
      ensures item.quantity - 1 > item.product.stockQuantity ==>
        calls == old(calls) && errorMessage == Some(StockMessage(item.product.stockQuantity))
    {
      EnabledDecrementIsNotIgnored(item.quantity, item.product.stockQuantity);
      HandleQuantityChange(item.quantity - 1, response);
    }
  }
}

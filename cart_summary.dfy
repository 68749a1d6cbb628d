/**
 * components/cart/cart-summary.tsx: the three figures of the cart summary
 * box, each computed by `reduce` or `length` over the listed cart items.
 */
module CartSummary {
  import opened Types
  import Sums
  import OrderQueries

  /** totalItems: the quantities summed. */
  function TotalItems(items: seq<CartItemWithProduct>): (total: int)
    ensures total == Sums.Sum(items, Sums.LineQuantity)
  {
    Sums.ReduceIsSum(items, Sums.LineQuantity, 0);
    Sums.Reduce(items, Sums.LineQuantity, 0)
  }

  /** totalPrice: price times quantity summed over the lines. */
  function TotalPrice(items: seq<CartItemWithProduct>): (total: int)
    ensures total == Sums.Sum(items, Sums.LineAmount)
  {
    Sums.ReduceIsSum(items, Sums.LineAmount, 0);
    Sums.Reduce(items, Sums.LineAmount, 0)
  }

  /** itemCount: the number of distinct lines. */
  function ItemCount(items: seq<CartItemWithProduct>): nat {
    |items|
  }

  /** The summary of an empty cart shows 0 three times. */
  lemma {:induction false} EmptyCartSummary()
    ensures TotalItems([]) == 0 && TotalPrice([]) == 0 && ItemCount([]) == 0
  {
  }

  /** The price the summary shows is the total createOrder stores for the same items. */
  lemma {:induction false} SummaryPriceIsOrderTotal(items: seq<CartItemWithProduct>)
    ensures TotalPrice(items) == OrderQueries.OrderTotal(items)
  {
  }

  /** With every quantity at least one, there are never more lines than units. */
  lemma {:induction false} ItemCountAtMostTotalItems(items: seq<CartItemWithProduct>)
    requires forall i :: 0 <= i < |items| ==> items[i].quantity >= 1
    ensures ItemCount(items) <= TotalItems(items)
  {
    Sums.QuantitySumAtLeastLength(items);
  }

  /** Adding a line adds its quantity and its price times quantity to the figures. */
  lemma {:induction false} SummaryOfAppendedLine(items: seq<CartItemWithProduct>, item: CartItemWithProduct)
    ensures TotalItems(items + [item]) == TotalItems(items) + item.quantity
    ensures TotalPrice(items + [item]) == TotalPrice(items) + item.product.price * item.quantity
    ensures ItemCount(items + [item]) == ItemCount(items) + 1
  {
    Sums.SumAppend(items, [item], Sums.LineQuantity);
    Sums.SumAppend(items, [item], Sums.LineAmount);
    assert Sums.Sum([item], Sums.LineQuantity) == item.quantity;
    assert Sums.Sum([item], Sums.LineAmount) == item.product.price * item.quantity;
  }
}

/**
 * components/checkout/checkout-summary.tsx: the order summary beside the
 * checkout form; per-row totals and category labels, and the two sums.
 */
module CheckoutSummary {
  import opened Types
  import Sums
  import CartSummary

  /** The Korean display names of the known categories. */
  const CategoryLabels: map<string, string> := map[
    "electronics" := "전자제품",
    "clothing" := "의류",
    "books" := "도서",
    "food" := "식품",
    "sports" := "스포츠",
    "beauty" := "뷰티",
    "home" := "생활/가정"]

  /** totalQuantity: the quantities summed (the component repeats the cart summary's `reduce`). */
  function TotalQuantity(items: seq<CartItemWithProduct>): (total: int)
    ensures total == Sums.Sum(items, Sums.LineQuantity)
  {
    Sums.ReduceIsSum(items, Sums.LineQuantity, 0);
    Sums.Reduce(items, Sums.LineQuantity, 0)
  }

  /** totalAmount: price times quantity summed over the rows (the same `reduce` as the cart summary's totalPrice). */
  function TotalAmount(items: seq<CartItemWithProduct>): (total: int)
    ensures total == Sums.Sum(items, Sums.LineAmount)
  {
    Sums.ReduceIsSum(items, Sums.LineAmount, 0);
    Sums.Reduce(items, Sums.LineAmount, 0)
  }

  /** The total shown on one row. */
  function RowTotal(item: CartItemWithProduct): int {
    item.product.price * item.quantity
  }

  /** The row totals, one per item, in display order. */
  function RowTotals(items: seq<CartItemWithProduct>): (totals: seq<int>)
    ensures |totals| == |items|
    ensures forall i :: 0 <= i < |items| ==> totals[i] == items[i].product.price * items[i].quantity
  {
    seq(|items|, i requires 0 <= i < |items| => RowTotal(items[i]))
  }

  function Amount(x: int): int {
    x
  }

  /**
   * `CATEGORY_LABELS[category] || category`: the label of a known category,
   * else the raw value (a product without category shows none).
   */
  function CategoryLabel(category: Option<string>): (shown: Option<string>)
    ensures category.None? ==> shown.None?
    ensures category.Some? && category.value !in CategoryLabels ==> shown == category
  {
    match category
    case None => None
    case Some(c) => if c in CategoryLabels && CategoryLabels[c] != "" then Some(CategoryLabels[c]) else Some(c)
  }

  /** The row totals add up to the total amount shown below them. */
  lemma {:induction false} RowTotalsSumToAmount(items: seq<CartItemWithProduct>)
    ensures Sums.Sum(RowTotals(items), Amount) == TotalAmount(items)
  {
    Sums.SumCongruent(RowTotals(items), Amount, items, Sums.LineAmount);
  }

  /** Every known category shows its Korean label, which is never the raw key. */
  lemma {:induction false} KnownCategoriesTranslated(c: string)
    requires c in CategoryLabels
    ensures CategoryLabel(Some(c)) == Some(CategoryLabels[c])
    ensures CategoryLabel(Some(c)) != Some(c)
  {
  }

  /** The checkout summary and the cart summary agree on the same items. */
  lemma {:induction false} SummariesAgree(items: seq<CartItemWithProduct>)
    ensures TotalQuantity(items) == CartSummary.TotalItems(items)
    ensures TotalAmount(items) == CartSummary.TotalPrice(items)
  {
  }
}

/**
 * The `reduce((sum, x) => sum + f(x), 0)` sums of the cart, checkout and
 * order code, with an independent right-recursive reference sum.
 */
module Sums {
  import opened Types

  /** Array.prototype.reduce with a running integer sum, starting at `acc`. */
  function Reduce<T>(xs: seq<T>, f: T -> int, acc: int): int
    decreases |xs|
  {
    if xs == [] then acc else Reduce(xs[1..], f, acc + f(xs[0]))
  }

  /** Reference definition: the sum of `f` over `xs`. */
  function Sum<T>(xs: seq<T>, f: T -> int): int
    decreases |xs|
  {
    if xs == [] then 0 else f(xs[0]) + Sum(xs[1..], f)
  }

  /** The left fold computes the sum, shifted by its start value. */
  lemma {:induction false} ReduceIsSum<T>(xs: seq<T>, f: T -> int, acc: int)
    ensures Reduce(xs, f, acc) == acc + Sum(xs, f)
    decreases |xs|
  {
    if xs != [] {
      ReduceIsSum(xs[1..], f, acc + f(xs[0]));
    }
  }

  lemma {:induction false} SumAppend<T>(xs: seq<T>, ys: seq<T>, f: T -> int)
    ensures Sum(xs + ys, f) == Sum(xs, f) + Sum(ys, f)
    decreases |xs|
  {
    if xs == [] {
      assert xs + ys == ys;
    } else {
      assert (xs + ys)[1..] == xs[1..] + ys;
      SumAppend(xs[1..], ys, f);
    }
  }

  /** Two functions that agree on every element give the same sum. */
  lemma {:induction false} SumCongruent<T, U>(xs: seq<T>, f: T -> int, ys: seq<U>, g: U -> int)
    requires |xs| == |ys|
    requires forall i :: 0 <= i < |xs| ==> f(xs[i]) == g(ys[i])
    ensures Sum(xs, f) == Sum(ys, g)
    decreases |xs|
  {
    if xs != [] {
      assert f(xs[0]) == g(ys[0]);
      SumCongruent(xs[1..], f, ys[1..], g);
    }
  }

  /** The extension of one cart line: product price times quantity. */
  function LineAmount(item: CartItemWithProduct): int {
    item.product.price * item.quantity
  }

  function LineQuantity(item: CartItemWithProduct): int {
    item.quantity
  }

  /** Every quantity at least one: the quantity sum is at least the number of lines. */
  lemma {:induction false} QuantitySumAtLeastLength(items: seq<CartItemWithProduct>)
    requires forall i :: 0 <= i < |items| ==> items[i].quantity >= 1
    ensures Sum(items, LineQuantity) >= |items|
    decreases |items|
  {
    if items != [] {
      QuantitySumAtLeastLength(items[1..]);
    }
  }
}

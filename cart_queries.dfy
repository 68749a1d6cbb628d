/**
 * lib/supabase/queries/cart.ts: the cart listing joined with products and
 * the cart badge count, as functions of the tables they read.
 */
module CartQueries {
  import opened Types
  import opened Database
  import Tables
  import Sums

  /** One row of the joined select: the cart-line columns and the embedded product. */
  datatype JoinedRow = JoinedRow(line: CartLine, product: Product)

  /** The ids of the listed lines, in listing order. */
  function RowIds(rows: seq<JoinedRow>): (ids: seq<nat>)
    ensures |ids| == |rows| && forall i :: 0 <= i < |rows| ==> ids[i] == rows[i].line.id
  {
    seq(|rows|, i requires 0 <= i < |rows| => rows[i].line.id)
  }

  /**
   * The store's answer to `select(..., product:products(...)).eq("clerk_id", owner)
   * .order("created_at", { ascending: false })`.
   */
  function SelectOwnerRows(st: State, owner: OwnerId): (rows: seq<JoinedRow>)
    requires CartWf(st)
    ensures forall i :: 0 <= i < |rows| ==>
      && rows[i].line.id in st.cartItems
      && rows[i].line == st.cartItems[rows[i].line.id]
      && rows[i].line.owner == owner
      && rows[i].product == st.products[rows[i].line.productId]
    ensures forall i, j :: 0 <= i < j < |rows| ==> rows[i].line.createdAt > rows[j].line.createdAt
  {
    var ids := Tables.Descending(st.cartItems, OwnedBy(owner), st.nextId);
    var rows := seq(|ids|, i requires 0 <= i < |ids| =>
      JoinedRow(st.cartItems[ids[i]], st.products[st.cartItems[ids[i]].productId]));
    rows
  }

  /** The `.map(item => ({ id, clerk_id, product_id, quantity, created_at, updated_at, product }))` copy. */
  function ToCartItem(row: JoinedRow): CartItemWithProduct {
    CartItemWithProduct(row.line.id, row.line.owner, row.line.productId, row.line.quantity,
      row.line.createdAt, row.product)
  }

  /** The cart-line columns of a joined cart item. */
  function LineOf(item: CartItemWithProduct): CartLine {
    CartLine(item.id, item.owner, item.productId, item.quantity, item.createdAt)
  }

  /** The copy loses nothing: the row can be read back from the item it produced. */
  lemma {:induction false} CopyIsLossless(row: JoinedRow)
    ensures LineOf(ToCartItem(row)) == row.line && ToCartItem(row).product == row.product
  {
  }

  function ToCartItems(rows: seq<JoinedRow>): (items: seq<CartItemWithProduct>)
    ensures |items| == |rows|
    ensures forall i :: 0 <= i < |rows| ==> LineOf(items[i]) == rows[i].line && items[i].product == rows[i].product
  {
    seq(|rows|, i requires 0 <= i < |rows| => ToCartItem(rows[i]))
  }

  /**
   * getCartItemsWithProducts: the owner's lines newest-first, each joined with
   * its current product; a failed select throws (here: a Failure naming the call).
   */
  function GetCartItemsWithProducts(st: State, owner: OwnerId, faults: set<StoreCall>)
    : (r: Result<seq<CartItemWithProduct>, StoreCall>)
    requires CartWf(st)
    ensures r.Failure? <==> SelectCart in faults
    ensures r.Success? ==> forall i :: 0 <= i < |r.value| ==>
      && r.value[i].id in st.cartItems
      && LineOf(r.value[i]) == st.cartItems[r.value[i].id]
      && r.value[i].owner == owner
      && r.value[i].product == st.products[r.value[i].productId]
    ensures r.Success? ==> forall i, j :: 0 <= i < j < |r.value| ==> r.value[i].createdAt > r.value[j].createdAt
  {
    if SelectCart in faults then Failure(SelectCart)
    else Success(ToCartItems(SelectOwnerRows(st, owner)))
  }

  /** Every line of the owner is listed. */
  lemma {:induction false} CartListingComplete(st: State, owner: OwnerId, faults: set<StoreCall>, k: nat)
    requires CartWf(st)
    requires SelectCart !in faults
    requires k in st.cartItems && st.cartItems[k].owner == owner
    ensures k in ItemIds(GetCartItemsWithProducts(st, owner, faults).value)
  {
    var ids := Tables.Descending(st.cartItems, OwnedBy(owner), st.nextId);
    Tables.DescendingComplete(st.cartItems, OwnedBy(owner), st.nextId, k);
    var rows := SelectOwnerRows(st, owner);
    assert RowIds(rows) == ids;
    assert ItemIds(ToCartItems(rows)) == RowIds(rows);
  }

  /** The ids of listed cart items, in listing order. */
  function ItemIds(items: seq<CartItemWithProduct>): (ids: seq<nat>)
    ensures |ids| == |items| && forall i :: 0 <= i < |items| ==> ids[i] == items[i].id
  {
    seq(|items|, i requires 0 <= i < |items| => items[i].id)
  }

  /** An owner's cart lists each product at most once. */
  lemma {:induction false} ListedProductsDistinct(st: State, owner: OwnerId, faults: set<StoreCall>)
    requires CartWf(st)
    requires GetCartItemsWithProducts(st, owner, faults).Success?
    ensures var items := GetCartItemsWithProducts(st, owner, faults).value;
      forall i, j :: 0 <= i < j < |items| ==> items[i].productId != items[j].productId
  {
    var items := GetCartItemsWithProducts(st, owner, faults).value;
    forall i, j | 0 <= i < j < |items|
      ensures items[i].productId != items[j].productId
    {
      var a, b := items[i].id, items[j].id;
      assert a != b;
      assert st.cartItems[a].productId == items[i].productId;
      assert st.cartItems[b].productId == items[j].productId;
    }
  }

  /** The quantity column of one selected row, `item.quantity || 0`. */
  function QuantityOrZero(q: Option<int>): int {
    match q
    case None => 0
    case Some(v) => v
  }

  function LineQuantity(l: CartLine): int {
    l.quantity
  }

  /** The store's answer to `select("quantity").eq("clerk_id", owner)`. */
  function SelectOwnerQuantities(st: State, owner: OwnerId): (column: seq<Option<int>>)
    ensures var lines := Tables.Rows(st.cartItems, Tables.Ascending(st.cartItems, OwnedBy(owner), st.nextId));
      |column| == |lines| && forall i :: 0 <= i < |lines| ==> column[i] == Some(lines[i].quantity)
  {
    var lines := Tables.Rows(st.cartItems, Tables.Ascending(st.cartItems, OwnedBy(owner), st.nextId));
    seq(|lines|, i requires 0 <= i < |lines| => Some(lines[i].quantity))
  }

  /**
   * getCartItemCount: the sum of the owner's quantities; any failure of the
   * select yields 0 instead of an exception.
   */
  function GetCartItemCount(st: State, owner: OwnerId, faults: set<StoreCall>): (count: int)
    ensures SelectCart in faults ==> count == 0
    ensures SelectCart !in faults ==>
      count == Sums.Sum(Tables.Rows(st.cartItems, Tables.Ascending(st.cartItems, OwnedBy(owner), st.nextId)), LineQuantity)
  {
    if SelectCart in faults then 0
    else
      var column := SelectOwnerQuantities(st, owner);
      var lines := Tables.Rows(st.cartItems, Tables.Ascending(st.cartItems, OwnedBy(owner), st.nextId));
      Sums.ReduceIsSum(column, QuantityOrZero, 0);
      Sums.SumCongruent(column, QuantityOrZero, lines, LineQuantity);
      Sums.Reduce(column, QuantityOrZero, 0)
  }

  /** An owner without cart lines has a count of 0. */
  lemma {:induction false} CountOfEmptyCart(st: State, owner: OwnerId, faults: set<StoreCall>)
    requires CartWf(st)
    requires forall k :: k in st.cartItems ==> st.cartItems[k].owner != owner
    ensures GetCartItemCount(st, owner, faults) == 0
  {
    Tables.AscendingEmpty(st.cartItems, OwnedBy(owner), st.nextId);
  }

  /** The badge count equals the quantity sum of the listed cart (when both reads succeed). */
  lemma {:induction false} CountMatchesListing(st: State, owner: OwnerId, faults: set<StoreCall>)
    requires CartWf(st)
    requires SelectCart !in faults
    ensures GetCartItemCount(st, owner, faults) ==
      Sums.Sum(GetCartItemsWithProducts(st, owner, faults).value, Sums.LineQuantity)
  {
    var asc := Tables.Ascending(st.cartItems, OwnedBy(owner), st.nextId);
    var desc := Tables.Descending(st.cartItems, OwnedBy(owner), st.nextId);
    var items := GetCartItemsWithProducts(st, owner, faults).value;
    AscendingReversesDescending(st.cartItems, OwnedBy(owner), st.nextId);
    assert |items| == |desc|;
    ReversedSum(Tables.Rows(st.cartItems, asc), items);
  }

  /** Listing newest-first visits the same keys as listing oldest-first, reversed. */
  lemma {:induction false} AscendingReversesDescending<T>(m: map<nat, T>, keep: T -> bool, n: nat)
    ensures var a, d := Tables.Ascending(m, keep, n), Tables.Descending(m, keep, n);
      |a| == |d| && forall i :: 0 <= i < |a| ==> a[i] == d[|d| - 1 - i]
    decreases n
  {
    if n > 0 {
      AscendingReversesDescending(m, keep, n - 1);
    }
  }

  /** The quantity sum does not depend on the order in which the owner's lines are listed. */
  lemma {:induction false} ReversedSum(lines: seq<CartLine>, items: seq<CartItemWithProduct>)
    requires |lines| == |items|
    requires forall i :: 0 <= i < |lines| ==> lines[i].quantity == items[|items| - 1 - i].quantity
    ensures Sums.Sum(lines, LineQuantity) == Sums.Sum(items, Sums.LineQuantity)
    decreases |lines|
  {
    if lines != [] {
      var last := |items| - 1;
      assert items == items[..last] + [items[last]];
      Sums.SumAppend(items[..last], [items[last]], Sums.LineQuantity);
      assert Sums.Sum([items[last]], Sums.LineQuantity) == items[last].quantity;
      ReversedSum(lines[1..], items[..last]);
    }
  }
}

# Storefront cart and order core, modelled in Dafny

This project models the part of a Next.js storefront that turns a shopping
cart into an order, together with the cart store it reads from and the
small client-side helpers that gate and summarise it.

- **The store.** The relational backend is a `Database.Store` object. Its
  maps `products`, `cartItems`, `orders` and `orderItems` are updated in
  place, and a single id counter `nextId` assigns fresh ids and creation
  stamps. `Database.State` is the value of those tables at one moment, and
  `Database.Wf` states the integrity the database keeps:
  - keys and stamps agree;
  - cart lines and order items refer to existing rows;
  - there is at most one cart line per (owner, product).
- **Store failures.** Whether each store call succeeds is an input. Every
  operation receives `faults: set<StoreCall>`, the store calls that fail
  during that run. The per-line product reads and stock decrements of
  `createOrder` are named by line index, so every early exit and every
  compensating delete can be stated.
- **Imperative operations.** Each state-changing operation
  (`addToCart`, `removeFromCart`, `updateCartQuantity`, `createOrder`, the
  `createOrder` action) is an imperative method on the `Store`. It is proved
  equal to an `…Outcome` function of the tables before the call. The lemmas
  about those functions carry what the source promises: success exactly
  when, nothing written on failure, what a success writes, and what can be
  read back afterwards.
- **Reads.** The reads (`getCartItemsWithProducts`, `getCartItemCount`,
  `getOrderById`, `getUserOrders` and their actions) are functions of the
  tables.
- **Client components.** The checkout form schema, the cart and checkout
  summaries, the cart-item guards, the pagination window and the
  product-list URL state are functions. Where the component updates state
  step by step, it is a class or method instead: `CartItem.CartItemView`,
  `Pagination.GetPageNumbers`, `ProductsContent.ProductsView`.

The caller's identity is an `Option<OwnerId>`: `None` means not signed in.
Error messages of the server actions are constructors of error datatypes,
one per distinct message. The client-side texts that the model compares
(the stock message, the category labels, the fallbacks) are kept as
strings.

Several reads swallow store failures instead of propagating them, and the
model follows the code:
- `getCartItemCount` returns 0 on a store error (`CartQueries.GetCartItemCount`);
- the `getOrder` action returns null on any exception (`OrderActions.GetOrder`);
- the `getUserOrders` action returns an empty list (`OrderActions.GetUserOrders`);
- `getOrderById` returns null when the order read fails.

The stock decrements that ran before a failing one are not undone. The
model states this outright, as the code behaves
(`OrderQueries.DecrementFailureKeepsEarlierDecrements`).

## Model

| member | source | states |
|---|---|---|
| Database.Store.constructor | lib/supabase/queries/order.ts:33-38 | the store holds the given well-formed tables |
| Database.FindLine | actions/cart.ts:74-79 | the `maybeSingle` lookup of the owner's line for a product: a found line has that owner and product; no result means no such line exists |
| Database.WithoutOwner | lib/supabase/queries/order.ts:161-164 | `delete().eq("clerk_id", owner)` keeps exactly the lines of other owners, unchanged |
| Database.Decrement | lib/supabase/queries/order.ts:141-144 | the successful `decrement_stock` call lowers that product's stock by the quantity and changes no other product |
| Database.DeleteOrderCascade | lib/supabase/queries/order.ts:132 | deleting a header removes exactly that order and its items and leaves every other row and table as it was |
| Tables.Ascending | lib/supabase/queries/order.ts:223-227 | a filtered select ordered by `created_at` ascending lists only matching rows, in strictly increasing order |
| Tables.Descending | lib/supabase/queries/order.ts:268-272 | a filtered select ordered by `created_at` descending lists only matching rows, in strictly decreasing order |
| Tables.AscendingComplete | lib/supabase/queries/order.ts:223-227 | every matching row is listed by the ascending select |
| Tables.DescendingComplete | lib/supabase/queries/order.ts:268-272 | every matching row is listed by the descending select |
| Sums.ReduceIsSum | lib/supabase/queries/order.ts:52-55 | a `reduce` from an initial value equals that value plus the sum over the list |
| OrderQueries.OrderTotal | lib/supabase/queries/order.ts:52-55 | the total is the sum of snapshot price × quantity over the cart lines |
| OrderQueries.LineRejection | lib/supabase/queries/order.ts:60-91 | a line passes exactly when its product read succeeds, the product exists, is active and has stock ≥ the line's quantity |
| OrderQueries.FirstRejectedFrom | lib/supabase/queries/order.ts:60-91 | the first failing line at or after a position, with every earlier line passing; none when all pass |
| OrderQueries.FirstRejection | lib/supabase/queries/order.ts:60-91 | no rejection exactly when every line passes its check |
| OrderQueries.CheckLines | lib/supabase/queries/order.ts:60-91 | the validation loop returns the error of the first failing line, or none |
| OrderQueries.FirstDecrementFailureFrom | lib/supabase/queries/order.ts:140-156 | the first line whose decrement fails, with every earlier decrement succeeding |
| OrderQueries.ApplyDecrements | lib/supabase/queries/order.ts:140-144 | the decrements change stock quantities only and keep the product set |
| OrderQueries.ApplyDecrementsPerLine | lib/supabase/queries/order.ts:140-144 | with one line per product, each line's product loses exactly that line's quantity and every other product is unchanged |
| OrderQueries.DecrementLines | lib/supabase/queries/order.ts:140-156 | the decrement loop stops at the first failing call; the decrements before it are applied and stay applied |
| OrderQueries.NoteOrNull | lib/supabase/queries/order.ts:103 | `orderNote \|\| null`: an absent or empty note is stored as null, any other note as given |
| OrderQueries.OrderItemRows | lib/supabase/queries/order.ts:117-123 | one row per cart line, in cart order, copying product id, name, quantity and price |
| OrderQueries.InsertItems | lib/supabase/queries/order.ts:125-127 | the batch insert adds exactly the new keys, stamps each with its id and leaves the older rows unchanged |
| OrderQueries.InsertPlacesDrafts | lib/supabase/queries/order.ts:125-127 | the i-th inserted row is the i-th draft under id firstId + i |
| OrderQueries.DeleteOrderRow | lib/supabase/queries/order.ts:132 | the compensating delete removes the order and its items, or nothing when the delete itself fails |
| OrderQueries.CreateOrder | lib/supabase/queries/order.ts:33-182 | the write protocol performed on the store gives the result and tables of `CreateOrderOutcome` and keeps the store well formed |
| OrderQueries.InsertRowsAndStock | lib/supabase/queries/order.ts:116-135 | after the header: the rows insert, or the compensating delete and a failure when it fails |
| OrderQueries.DecrementAndClear | lib/supabase/queries/order.ts:139-176 | after both inserts: the decrements with compensation on failure, then the cart clear whose failure does not change the result |
| OrderQueries.CreateOrderKeepsWf | lib/supabase/queries/order.ts:33-182 | every path of createOrder leaves well-formed tables |
| OrderQueries.EmptyCartFailsFirst | lib/supabase/queries/order.ts:45-49 | an empty cart fails with EmptyCart and leaves every table unchanged |
| OrderQueries.RejectedLineDecidesError | lib/supabase/queries/order.ts:60-91 | the first line that is missing, inactive or short of stock decides the error (by the snapshot name), and nothing is written or decremented |
| OrderQueries.CreateOrderSucceedsIff | lib/supabase/queries/order.ts:44-176 | success exactly when the cart is non-empty, every line passes, both inserts succeed and every decrement succeeds; the id is the header's |
| OrderQueries.SuccessState | lib/supabase/queries/order.ts:95-176 | the tables after success: header, rows, all decrements, then the cart clear |
| OrderQueries.SuccessfulOrderHeader | lib/supabase/queries/order.ts:96-104 | the header is added under the returned id, with the owner, status pending, total Σ price × quantity, the given address and the note or null; no other order changes |
| OrderQueries.SuccessOrderTables | lib/supabase/queries/order.ts:96-135 | after success the orders and order_items tables are the old ones plus the new header and its snapshot rows |
| OrderQueries.StoredOrderReadsBack | lib/supabase/queries/order.ts:117-123 | reading back the created order gives the stored header and exactly one item per cart line in cart order, copying product id, name, quantity and price, whose Σ price × quantity equals total_amount |
| OrderQueries.ReadBackAfterInsert | lib/supabase/queries/order.ts:223-227 | over the tables before and after the inserts, the new order reads back as its snapshot |
| OrderQueries.ReadNewOrder | lib/supabase/queries/order.ts:223-238 | an order whose only rows are its fresh snapshot rows is read back with those rows, summing to its total |
| OrderQueries.NewOrderItems | lib/supabase/queries/order.ts:223-227 | the listed items of the new order are its snapshot rows, one per cart line, in cart order |
| OrderQueries.NewRowsListed | lib/supabase/queries/order.ts:223-227 | a block of rows stored above all older rows is listed back in insertion order |
| OrderQueries.SuccessfulOrderDecrementsStock | lib/supabase/queries/order.ts:140-156 | with one line per product, success lowers each line's product stock by its quantity, leaves it non-negative and leaves other products unchanged |
| OrderQueries.SuccessfulOrderClearsCart | lib/supabase/queries/order.ts:160-176 | after success the owner has no cart lines unless the clear failed (then the cart is unchanged); other owners' lines stay; the clear's failure does not change the result |
| OrderQueries.CompensationUndoesHeader | lib/supabase/queries/order.ts:129-135 | deleting the new header before any row was inserted leaves the tables as before, with only the id counter moved |
| OrderQueries.CompensationUndoesInserts | lib/supabase/queries/order.ts:151-154 | deleting the header after its rows were inserted removes the header and all its rows and nothing else |
| OrderQueries.ItemsInsertFailureLeavesNoOrphan | lib/supabase/queries/order.ts:129-135 | a failed rows insert fails the call and, when the delete goes through, leaves no orphan header |
| OrderQueries.DecrementFailureKeepsEarlierDecrements | lib/supabase/queries/order.ts:140-156 | a failed decrement of line d fails the call, deletes the header and its rows, and keeps the decrements of lines before d |
| OrderQueries.FailedCompensationLeavesHeader | lib/supabase/queries/order.ts:129-135 | when the compensating delete itself fails, the call still fails and the header stays behind |
| OrderQueries.GetOrderById | lib/supabase/queries/order.ts:203-245 | the order only when both id and owner match, with its own items in ascending created_at order; null on a failed or empty order read; a failed item read throws |
| OrderQueries.OrderItemsOf | lib/supabase/queries/order.ts:223-227 | only the order's own items, ascending by created_at |
| OrderQueries.OrderItemsComplete | lib/supabase/queries/order.ts:223-227 | every item of a found order is listed |
| OrderQueries.GetUserOrders | lib/supabase/queries/order.ts:268-283 | only the owner's orders, newest first; a failed read throws |
| OrderQueries.UserOrdersComplete | lib/supabase/queries/order.ts:268-283 | every order the owner placed is listed |
| OrderActions.ShippingProblem | actions/order.ts:63-91 | address checks in the order completeness, phone pattern, postal pattern: each failure exactly when the earlier checks pass and its own fails |
| OrderActions.ActionResultOf | actions/order.ts:108-131 | success carries exactly the query's id; a thrown error becomes a failure carrying it |
| OrderActions.CreateOrder | actions/order.ts:42-132 | the action on the store gives the result and tables of `CreateOrderActionOutcome` and keeps them well formed |
| OrderActions.CreateOrderActionKeepsWf | actions/order.ts:42-132 | every path of the action leaves well-formed tables |
| OrderActions.EarlyFailureWritesNothing | actions/order.ts:50-102 | no identity gives NotSignedIn, a bad address its first problem; every failure before the query leaves the tables unchanged |
| OrderActions.CreateOrderActionSucceedsIff | actions/order.ts:50-122 | success exactly when signed in, the address passes, the cart read succeeds, the cart is non-empty and the query succeeds; the id is the query's |
| OrderActions.CheckoutConsumesCart | lib/supabase/queries/order.ts:140-176 | after a checkout every cart line of the owner has taken its quantity off its product, and the cart is empty unless the clear failed |
| OrderActions.ListedLinesDecremented | lib/supabase/queries/cart.ts:57-58 | a stock drop for every listed line is a stock drop for every line of the owner |
| OrderActions.CheckoutReadsBack | actions/order.ts:140-175 | the order id a checkout returns reads back through getOrder for its owner: pending, with the given address |
| OrderActions.GetOrder | actions/order.ts:146-174 | an order exactly when signed in, both reads succeed and the order is the caller's; otherwise null |
| OrderActions.GetUserOrders | actions/order.ts:187-209 | an empty list without identity or on a failed read; otherwise the owner's orders |
| OrderActions.CancelOrder | actions/order.ts:218-256 | no identity gives the login failure; otherwise the query's result unchanged, a thrown error its message, anything else the fallback |
| CartActions.AddToCart | actions/cart.ts:38-178 | the action on the store gives the result and tables of `AddToCartOutcome` and keeps the store well formed |
| CartActions.UpdateLineQuantity | actions/cart.ts:106-109 | `update({ quantity }).eq("id", k)` sets that line's quantity only |
| CartActions.InsertLine | actions/cart.ts:143-151 | the insert stores a new line under the next id |
| CartActions.AddToCartKeepsWf | actions/cart.ts:90-168 | addToCart keeps the tables well formed, so it never makes a second line for one (owner, product) |
| CartActions.AddToCartFailureWritesNothing | actions/cart.ts:42-168 | every failure of addToCart leaves the tables unchanged |
| CartActions.AddToCartChecksProductFirst | actions/cart.ts:59-69 | a missing or unreadable product gives ProductNotFound, an inactive one ProductInactive, both without touching cart_items |
| CartActions.FindLineComplete | actions/cart.ts:74-79 | the lookup finds the owner's existing line for the product |
| CartActions.AddToCartMergesIntoExistingLine | actions/cart.ts:90-128 | with an existing line, the quantity becomes existing + requested on the same id, which is returned; a sum above stock is refused with no change |
| CartActions.AddToCartInsertsNewLine | actions/cart.ts:129-168 | with no line, one is inserted with the requested quantity under a fresh id only if that quantity fits the stock |
| CartActions.RemoveFromCart | actions/cart.ts:186-231 | the action on the store gives the result and tables of `RemoveFromCartOutcome` |
| CartActions.RemoveDeletesOnlyOwnedLine | actions/cart.ts:205-222 | the line is deleted only when id and owner both match; a missing or foreign id still succeeds and changes nothing |
| CartActions.RemoveIsIdempotent | actions/cart.ts:205-222 | removing twice is removing once, and both calls succeed |
| CartActions.UpdateCartQuantity | actions/cart.ts:240-329 | the action on the store gives the result and tables of `UpdateCartQuantityOutcome` |
| CartActions.UpdateRejectsQuantityBelowOneFirst | actions/cart.ts:250-254 | a quantity below one is rejected before any other check, identity included, with nothing written |
| CartActions.UpdateSetsExactlyThatLine | actions/cart.ts:268-319 | success exactly when the line is the caller's, its product is found, 1 ≤ quantity ≤ stock and the write succeeds; it then sets exactly that line's quantity and changes nothing else; failures write nothing |
| CartActions.NoIdentityWritesNothing | actions/cart.ts:42-46 | without identity addToCart, removeFromCart and updateCartQuantity (once the quantity passes) fail unauthenticated with no write, and getCartItems is empty |
| CartActions.GetCartItems | actions/cart.ts:336-407 | no identity gives an empty list; otherwise the joined listing, which throws on a store error |
| CartQueries.SelectOwnerRows | lib/supabase/queries/cart.ts:33-58 | only the owner's lines, each with its current product, newest first |
| CartQueries.ToCartItems | lib/supabase/queries/cart.ts:67-75 | the copy keeps length and order and every field of line and product |
| CartQueries.CopyIsLossless | lib/supabase/queries/cart.ts:67-75 | the row can be recovered from the item it was copied into |
| CartQueries.GetCartItemsWithProducts | lib/supabase/queries/cart.ts:25-86 | a failure exactly when the select fails; otherwise only the owner's lines, newest first, each joined with its product |
| CartQueries.CartListingComplete | lib/supabase/queries/cart.ts:57-58 | every line of the owner is listed |
| CartQueries.ListedProductsDistinct | lib/supabase/queries/cart.ts:57-58 | an owner's listing holds each product at most once |
| CartQueries.GetCartItemCount | lib/supabase/queries/cart.ts:96-130 | the sum of the owner's quantities; 0 when the select fails |
| CartQueries.CountOfEmptyCart | lib/supabase/queries/cart.ts:116-119 | an owner with no lines has count 0 |
| CartQueries.CountMatchesListing | lib/supabase/queries/cart.ts:104-119 | the badge count equals the quantity sum of the listed cart |
| CartQueries.AscendingReversesDescending | lib/supabase/queries/cart.ts:57-58 | the newest-first listing is the oldest-first listing reversed |
| CartQueries.ReversedSum | lib/supabase/queries/cart.ts:116-119 | the quantity sum does not depend on the listing order |
| CartSummary.TotalItems | components/cart/cart-summary.tsx:39 | totalItems is Σ quantity |
| CartSummary.TotalPrice | components/cart/cart-summary.tsx:42-45 | totalPrice is Σ price × quantity |
| CartSummary.EmptyCartSummary | components/cart/cart-summary.tsx:39-48 | an empty list gives 0 for all three figures |
| CartSummary.SummaryPriceIsOrderTotal | components/cart/cart-summary.tsx:42-45 | totalPrice equals the total createOrder stores for the same items |
| CartSummary.ItemCountAtMostTotalItems | components/cart/cart-summary.tsx:48 | with every quantity ≥ 1, itemCount ≤ totalItems |
| CartSummary.SummaryOfAppendedLine | components/cart/cart-summary.tsx:39-48 | one more line adds its quantity, its price × quantity and 1 to the three figures |
| CheckoutSummary.TotalQuantity | components/checkout/checkout-summary.tsx:37 | totalQuantity is Σ quantity |
| CheckoutSummary.TotalAmount | components/checkout/checkout-summary.tsx:38-41 | totalAmount is Σ price × quantity |
| CheckoutSummary.RowTotals | components/checkout/checkout-summary.tsx:51-52 | one row total per item, each price × quantity |
| CheckoutSummary.RowTotalsSumToAmount | components/checkout/checkout-summary.tsx:52 | the row totals sum to totalAmount |
| CheckoutSummary.CategoryLabel | components/checkout/checkout-summary.tsx:53-54 | no category gives none; a category outside the label map shows as itself |
| CheckoutSummary.KnownCategoriesTranslated | components/checkout/checkout-summary.tsx:25-33 | each of the seven known categories shows its Korean label, never its raw key |
| CheckoutSummary.SummariesAgree | components/checkout/checkout-summary.tsx:37-41 | the checkout figures equal the cart summary's for the same items |
| CheckoutForm.SchemaIssues | components/checkout/checkout-form.tsx:35-48 | each issue exactly when its check fails: empty recipient, empty phone, phone outside /^[0-9-]+$/, empty postal code, postal code not five digits, empty address1 |
| CheckoutForm.ToOrderInput | components/checkout/checkout-form.tsx:73-82 | onSubmit copies every field unchanged: the form can be recovered from the input |
| CheckoutForm.CopyIsBijective | components/checkout/checkout-form.tsx:73-82 | every order input is the copy of the form it maps back to |
| CheckoutForm.SchemaAgreesWithServer | components/checkout/checkout-form.tsx:35-48 | the schema accepts a form exactly when the server's address checks pass on the input built from it |
| CheckoutForm.EmptyFieldIssuesMatchServer | components/checkout/checkout-form.tsx:36-45 | the server reports a missing field exactly when the schema has an empty-field issue, and an invalid phone exactly when the phone pattern is the first failing check |
| CartItem.StockFlagsExclusive | components/cart/cart-item.tsx:40-41 | out of stock exactly at stock 0, low stock exactly at 0 < stock < 10, never both |
| CartItem.RowTotalsSumToSummary | components/cart/cart-item.tsx:39 | the itemTotal values of the rows sum to the summary's totalPrice |
| CartItem.Guard | components/cart/cart-item.tsx:57-61 | a quantity below 1 is ignored, one above stock is refused, and exactly 1 ≤ q ≤ stock is sent |
| CartItem.EnabledDecrementIsNotIgnored | components/cart/cart-item.tsx:166 | an enabled "−" never sends an ignored quantity; its quantity is sent exactly when it is within the stock |
| CartItem.EnabledIncrementSends | components/cart/cart-item.tsx:187 | an enabled "+" on a non-negative quantity always reaches the server |
| CartItem.SentQuantityPassesServerChecks | components/cart/cart-item.tsx:57-70 | a sent quantity never fails the server's quantity check, nor its stock check while the client's stock is current |
| CartItem.CartItemView.constructor | components/cart/cart-item.tsx:33-36 | the item starts not updating, with no message and no calls |
| CartItem.CartItemView.HandleQuantityChange | components/cart/cart-item.tsx:56-86 | an ignored quantity changes nothing; too large a quantity only sets the stock message; a sent one makes exactly one call while updating, then refreshes on success, shows the server's error or the fallback, and always ends not updating |
| CartItem.CartItemView.ClickIncrement | components/cart/cart-item.tsx:186-187 | an enabled "+" sends quantity + 1 once |
| CartItem.CartItemView.ClickDecrement | components/cart/cart-item.tsx:165-166 | an enabled "−" sends quantity − 1, or shows the stock message when that still exceeds the stock |
| Pagination.GetPageNumbers | components/products/pagination.tsx:36-66 | 1..totalPages when at most five; otherwise five consecutive pages in [1, totalPages], starting at 1 when currentPage ≤ 3, at totalPages − 4 when currentPage ≥ totalPages − 2, else at currentPage − 2; currentPage is shown whenever it is in range |
| Pagination.Render | components/products/pagination.tsx:31-70 | nothing exactly when totalPages ≤ 1; hasPrevious exactly when currentPage > 1, hasNext exactly when currentPage < totalPages |
| Numbers.NatToString | components/products/products-content.tsx:58 | the decimal digits of the number |
| Numbers.IntToString | components/products/products-content.tsx:58 | `page.toString()`: a leading minus exactly for negative pages |
| Numbers.ParseDigits | components/products/products-content.tsx:41 | a value exactly for non-empty digit strings |
| Numbers.ParseNumber | components/products/products-content.tsx:41 | `Number()` on "" is 0, on a signed digit string its integer value, otherwise NaN |
| Numbers.ParseDigitsOfNatToString | components/products/products-content.tsx:41 | reading back the digits gives the number |
| Numbers.ParseNumberOfIntToString | components/products/products-content.tsx:41 | `Number(String(i))` is i for every integer |
| ProductsContent.Get | components/products/products-content.tsx:35 | `get(key)` gives null exactly when no parameter has that name |
| ProductsContent.SetParam | components/products/products-content.tsx:56-58 | `set`: the name then reads as the value, every other name as before, and a new name goes last |
| ProductsContent.QueryParams | components/products/products-content.tsx:55-58 | category present exactly when ≠ "all", sort exactly when ≠ "latest", page exactly when ≠ 1 (as its decimal text), in the order category, sort, page |
| ProductsContent.Serialize | components/products/products-content.tsx:60 | the query string is empty exactly when there are no parameters |
| ProductsContent.Href | components/products/products-content.tsx:61 | "/products" for no parameters, else "/products?" followed by the query |
| ProductsContent.BareUrlExactlyForDefaults | components/products/products-content.tsx:55-61 | the URL is bare "/products" exactly when category is "all", sort "latest" and page 1 |
| ProductsContent.InitialCategory | components/products/products-content.tsx:34-36 | a missing or empty category starts as "all" |
| ProductsContent.InitialSort | components/products/products-content.tsx:37-39 | a missing or empty sort starts as "latest" |
| ProductsContent.InitialPage | components/products/products-content.tsx:40-42 | a missing, empty, zero or non-numeric page starts as 1 |
| ProductsContent.ReadBackRoundTrip | components/products/products-content.tsx:34-63 | reloading the URL updateURL wrote restores (category, sort, page) exactly when category and sort are non-empty and page ≠ 0 |
| ProductsContent.ResetUrlHasNoPage | components/products/products-content.tsx:105-118 | after a category or sort change the URL has no page parameter and keeps the other selection's parameter |
| ProductsContent.ProductsView.constructor | components/products/products-content.tsx:34-42 | the initial state is what the URL's parameters read back as |
| ProductsContent.ProductsView.UpdateUrl | components/products/products-content.tsx:52-63 | one URL pushed, the one for the given selection; the state is unchanged |
| ProductsContent.ProductsView.HandleCategoryChange | components/products/products-content.tsx:105-110 | new category, page reset to 1, sort kept, the matching URL pushed |
| ProductsContent.ProductsView.HandleSortChange | components/products/products-content.tsx:113-118 | new sort, page reset to 1, category kept, the matching URL pushed |
| ProductsContent.ProductsView.HandlePageChange | components/products/products-content.tsx:121-124 | new page, category and sort kept, the matching URL pushed |

## Left out

- Order cancellation: `cancelOrderQuery` is not part of this model because its source is not in the repository. `OrderActions.CancelOrder` only forwards its result, and stock restoration is not modelled.
- The `decrement_stock` procedure lives in the external database. On success it is an abstract decrement of that product's stock (`Database.Decrement`), and its failure is an input.
- Popular-product scoring and the filtered product queries are not in the repository, and the scoring would be floating point.
- Concurrency: the model runs one request at a time. This leaves out the check-then-act race between the stock check and the decrement, the lost update on cart quantities, and intermediate states seen by other requests.
- Authentication, the middleware and the user sync are the identity provider's I/O. The owner id is an optional input.
- The store client is a foreign library. Its tables are the in-model maps, ids and timestamps come from one counter, and `updated_at`, `view_count` and descriptions are carried but never compared.
- Presentation: JSX, routing, redirects, dialogs, `Intl.NumberFormat` and `toLocaleString` formatting, date formatting and `console` logging.
- The server actions' error texts are replaced by error datatypes, one constructor per distinct message.
- ProductsContent.Serialize: names and values are joined without percent-encoding, so no parser for the query string is given. The round trip is stated at the level of the parameter list.
- Numbers.ParseNumber: `Number()` is modelled only for "", a signed or unsigned digit string, and NaN. Whitespace, decimals, exponents and hexadecimal forms are not modelled, and so non-integer pages are not covered either.
- Pagination.GetPageNumbers: works on integer pages only. A fractional currentPage from the URL is not modelled.
- CheckoutSummary.CategoryLabel: a category whose name is a JavaScript object built-in (such as "constructor") would read an inherited property of the label record. It is modelled as unknown and shown raw.
- CartItem: `handleRemove` and the direct number input (`parseInt`) are left out. The first mirrors `handleQuantityChange` without guards; the second needs string parsing beyond the model.
- The `createOrder` query's `try/catch` rethrow and the action's conversion of any exception to a failure are modelled by `Result` values, so no operation of the model can throw.
- OrderQueries.StoredOrderReadsBack: the order in which one order's items read back is the model's own tie-break. The batch insert sets no `created_at`, so the database default stamps the rows, and a statement-time default gives every row of one insert the same value, which leaves `.order("created_at")` free to list them in any order. The model stamps each row with its own increasing id, so "in cart order" in this lemma and in OrderQueries.ReadBackAfterInsert, OrderQueries.ReadNewOrder and OrderQueries.NewOrderItems is not something the source promises. The items read back and their sum matching total_amount do not depend on that order.
- CartQueries.GetCartItemCount: the quantity column is modelled as always present, because `quantity` is a required integer column. The `|| 0` fallback for a missing value is kept in `QuantityOrZero` but is never reached.

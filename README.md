# Shop controller model

A Dafny model of the request handlers of a small e-commerce storefront
(`controllers/shop.js`): the paginated product list and index page, the
per-user cart, the order lifecycle (`pending`, `canceled`, `paid`) around
checkout and payment confirmation, the list of paid orders and the invoice.

The database, the payment provider and the PDF library are replaced by an
in-memory state and by inputs:

- `wrappers.dfy` — `Option` and `Result`.
- `catalog.dfy` (module `Catalog`) — products (prices in integer cents), the
  `findById` lookup, the page number taken from the query string, the
  skip/limit window, the navigation fields and the two listing handlers.
- `cart.dfy` (module `Cart`) — cart lines and the user record's
  `addToCart` / `removeFromCart` operations, with per-product quantities.
- `orders.dfy` (module `Orders`) — orders and their statuses, the snapshot
  `postOrder` takes of the cart, order totals (the `total +=` loop), and the
  three order queries the handlers run (`findOne` without and with the
  `pending` filter, `find` of the paid orders).
- `reconcile.dfy` (module `Reconcile`) — what reconciliation in `getCart`
  computes (every pending order of the user restored into the cart, unit by
  unit, and canceled) and what that means: quantities, idempotence, and the
  round trip order-then-view-cart.
- `shop.dfy` (module `ShopController`) — class `Shop`: the signed-in user,
  the catalogue, the user's cart and the order table, with one method per
  handler. State-changing handlers state the whole new state in terms of the
  old one; read-only handlers state their result.

Modelling choices:

- The order table is a sequence; an order's id is its index and the sequence
  order is the order in which the database returns documents (creation
  order). Orders are never deleted by these handlers. This gives `findOne`
  and `find` a defined answer.
- The catalogue is a sequence of products in `find()` order; `findById`
  returns the first product with the id.
- The page query is `Absent`, `NotNumeric` or `Numeric(n)` for an integer
  string; `+q || 1` keeps every non-zero number, so a negative page is kept.
  Its skip `(page - 1) * 2` is then negative, which the database refuses: the
  product list has no `catch` and sends nothing, the index page forwards a 500.
- The payment provider's execution result is an input (`Execution`); payment
  creation is represented by the request handed to it (`PaymentRequest`: the
  order id of the return address and the amount in cents).
- The user record's `addToCart` (increment the product's line in place, or
  append a line of quantity 1), `removeFromCart` (drop the product's lines) and
  `clearCart` (empty the cart) live in `models/user.js`, which is not part of
  this model; they are modelled by that behaviour.
- The model follows the code as written where a reader might expect
  otherwise: a negative page is kept as it is rather than clamped to 1;
  `postCheckout` takes the user's first order in table order, with no filter
  on `pending` (lemma `Orders.FirstOrderIgnoresStatus` shows it choosing a
  paid order while a pending one exists); `getPaymentStatus` marks the order
  `paid` whatever its previous status, so an order can change status after
  being paid, and it does not check the order's owner.

## Model

| member | source | states |
|---|---|---|
| `Catalog.PageOf` | controllers/shop.js:23 | the page is never 0; a non-zero number from the query is kept; an absent, non-numeric or zero query gives page 1 |
| `Catalog.PageWindow` | controllers/shop.js:25-31 | the window is refused exactly for pages below 1; otherwise it holds min(2, max(0, N - 2(page-1))) products, the ones at positions 2(page-1), 2(page-1)+1 of the catalogue |
| `Catalog.LastPage` | controllers/shop.js:43 | lastPage is ceil(N / 2): 0 exactly for an empty catalogue, otherwise the least k with N <= 2k |
| `Catalog.NextPageIffMoreProducts` | controllers/shop.js:39-43 | for page >= 1, hasNextPage holds exactly when page < lastPage and exactly when the window of nextPage is non-empty |
| `Catalog.PreviousPageIffValid` | controllers/shop.js:40-42 | hasPreviousPage holds exactly when previousPage is a page the database accepts |
| `Catalog.EveryProductOnItsPage` | controllers/shop.js:29-43 | product i is shown on page i / 2 + 1, which lies between 1 and lastPage |
| `Catalog.PagesAfterLastAreEmpty` | controllers/shop.js:29-43 | a page after lastPage is accepted and shows no product |
| `Catalog.GetProducts` | controllers/shop.js:22-47 | the list is rendered exactly when the page is at least 1; its products are that page's skip/limit window (at most 2) and its navigation fields are currentPage = page, hasNextPage = 2 * page < N, hasPreviousPage = page > 1, nextPage = page + 1, previousPage = page - 1, lastPage = ceil(N / 2); otherwise no response is sent |
| `Catalog.GetIndex` | controllers/shop.js:66-96 | the index is rendered exactly when the page is at least 1, with that page's window and the same navigation fields as the product list; otherwise a 500 error is forwarded |
| `Catalog.IndexMatchesProducts` | controllers/shop.js:77-88 | the index page renders exactly when the product list does, with the same products and the same navigation fields |
| `Catalog.DefaultPageShowsFirstProducts` | controllers/shop.js:23-31 | without a usable page number the list shows the first two products and no previous page |
| `Catalog.FindById` | controllers/shop.js:146 | the lookup fails exactly when no product has the id; a found product is in the catalogue and has the id |
| `Cart.AddToCart` | controllers/shop.js:148 | an existing line keeps its place and the cart its length, a new product is appended with quantity 1, other lines are untouched, one line per product and positive quantities are kept |
| `Cart.AddToCartQuantity` | controllers/shop.js:148 | adding raises the product's quantity by exactly 1 and no other product's |
| `Cart.AddTwiceToEmptyCart` | controllers/shop.js:144-158 | adding one product twice to an empty cart gives one line of quantity 2 |
| `Cart.RemoveFromCart` | controllers/shop.js:162-163 | the result holds exactly the lines of other products; a product not in the cart leaves it unchanged |
| `Cart.RemoveFromCartQuantity` | controllers/shop.js:160-172 | after removal the product's quantity is 0 and every other quantity is unchanged |
| `Cart.RemoveFromCartWellFormed` | controllers/shop.js:160-172 | removal keeps one line per product with positive quantities |
| `Cart.RemoveFromCartAppend` | controllers/shop.js:162-163 | removal from a concatenation is the concatenation of the removals, so the remaining lines keep their relative order |
| `Cart.RemoveFromCartCutsLine` | controllers/shop.js:162-163 | in a well-formed cart holding the product, removal cuts out exactly the product's line and keeps the lines before and after it in order |
| `Orders.Snapshot` | controllers/shop.js:281-283 | the snapshot exists exactly when every cart product is found; it has the cart's lines in the same order, each with the cart line's quantity and a catalogue copy of that product |
| `Orders.LinesTotalAppend` | controllers/shop.js:386-389 | the total of a concatenation of lines is the sum of the totals |
| `Orders.LinesTotalNonNegative` | controllers/shop.js:191-195 | with non-negative prices an order total is non-negative |
| `Orders.Total` | controllers/shop.js:191-193 | the accumulator loop computes the sum of quantity times price over the lines |
| `Orders.FirstOrderOf` | controllers/shop.js:224 | the result is the user's first order in table order, and none exactly when the user has no order |
| `Orders.FirstPendingOf` | controllers/shop.js:179 | the result is the user's first pending order, and none exactly when the user has no pending order |
| `Orders.FirstOrderIgnoresStatus` | controllers/shop.js:224-239 | with an older paid order and a newer pending one, the checkout payment takes the paid order while the pending query finds the other |
| `Orders.PaidOrdersOf` | controllers/shop.js:349 | an order id is listed exactly when the order belongs to the user and is paid; the ids are strictly increasing, so each such order appears once and in table order |
| `Reconcile.AddUnits` | controllers/shop.js:113-115 | repeated additions keep one line per product with positive quantities |
| `Reconcile.AddLines` | controllers/shop.js:112-116 | restoring an order's lines keeps one line per product with positive quantities |
| `Reconcile.RestorePending` | controllers/shop.js:103-119 | restoring all pending orders keeps one line per product with positive quantities |
| `Reconcile.CancelPending` | controllers/shop.js:117 | every pending order of the user becomes canceled, every other order is unchanged, the table keeps its length |
| `Reconcile.AddUnitsQuantity` | controllers/shop.js:113-115 | n additions of a product raise its quantity by n and no other product's |
| `Reconcile.AddLinesQuantity` | controllers/shop.js:112-116 | restoring lines raises each product's quantity by its units in those lines |
| `Reconcile.RestoreQuantity` | controllers/shop.js:103-121 | after reconciliation each product's cart quantity has grown by exactly the sum of its quantities in the user's pending orders |
| `Reconcile.NoPendingAfterCancel` | controllers/shop.js:111-119 | after reconciliation no order of the user is pending |
| `Reconcile.RestoreWithoutPending` | controllers/shop.js:103-119 | without pending orders of the user the cart is left as it is |
| `Reconcile.SecondViewChangesNothing` | controllers/shop.js:98-141 | viewing the cart a second time with no new pending order changes neither the cart nor any order |
| `Reconcile.AddUnitsToNewLine` | controllers/shop.js:113-115 | n additions of a product not yet in the cart form one new last line of quantity n |
| `Reconcile.RestoreSnapshot` | controllers/shop.js:111-118 | restoring the lines of a snapshot into an empty cart rebuilds that cart: same products, order and quantities |
| `Reconcile.OrderThenViewRestoresCart` | controllers/shop.js:276-295 | ordering a cart and then viewing the cart, with no other pending order of the user, gives back exactly the ordered cart |
| `ShopController.Shop.PostCart` | controllers/shop.js:144-158 | a known product is added to the cart and the user is redirected to the cart; an unknown one fails with a 500 and changes nothing |
| `ShopController.Shop.PostCartDeleteProduct` | controllers/shop.js:160-172 | the product's line is removed, the orders are untouched, the user is redirected to the cart |
| `ShopController.Shop.GetCart` | controllers/shop.js:98-141 | the new cart is the old one with every pending order of the user restored, those orders are canceled, the rendered items are the new cart |
| `ShopController.Shop.AddLinesToCart` | controllers/shop.js:111-116 | the nested per-line, per-unit loops add exactly the order's lines to the cart and touch no order |
| `ShopController.Shop.GetCheckout` | controllers/shop.js:174-215 | without a pending order the checkout is empty with total 0; otherwise it shows that pending order's lines, and the total is the sum of quantity times price |
| `ShopController.Shop.PostCheckout` | controllers/shop.js:217-273 | without an order of the user the request fails and nothing changes; otherwise the user's first order is canceled whether or not it already was and the payment asks for its total |
| `ShopController.Shop.PostOrder` | controllers/shop.js:276-305 | the table gains one pending order of the user holding the cart's snapshot and the cart is emptied; if a cart product is gone nothing changes and the request fails |
| `ShopController.Shop.GetPaymentStatus` | controllers/shop.js:307-345 | the order becomes paid, and the user goes to the orders page, exactly when the provider reports "approved" and the order exists; otherwise no order changes and the user goes back to checkout; the cart never changes |
| `ShopController.Shop.GetOrders` | controllers/shop.js:348-362 | the listed orders are the user's paid orders, one entry per paid order in table order, each one the user's and paid |
| `ShopController.Shop.GetInvoice` | controllers/shop.js:364-397 | a missing order is refused as not found, another user's order as unauthorized; otherwise the invoice lists each line's title, quantity and price and its total is the sum of price times quantity |

## Left out

- Persistence: populating, finding, counting, saving and updating documents
  are reads and writes of the in-memory state; database failures (other than
  the refused negative skip) and non-atomic two-record updates are not
  modelled.
- The payment provider: configuration, payment creation and execution. Their
  results are inputs; the approval link and the JSON response are not
  modelled, nor an exception thrown by a failed payment creation.
- Invoice rendering: the PDF document, its file on disk and the response
  headers. Only the authorization checks, the listed lines and the total remain.
- View rendering and redirects are result values; console logging is left out.
- The concurrent `Promise.all` in `getCart` is modelled as the sequential
  loop it stands for.
- `getProduct` (controllers/shop.js:49-64): its only logic is the lookup
  `Catalog.FindById` and a render.
- `Catalog.PageOf`: page strings denoting non-integer numbers (`1.5`,
  `Infinity`) are not modelled; the page is an integer. The source's page is
  a JavaScript double, so an integer string beyond 2^53 is rounded
  (`+"9007199254740993"` is 9007199254740992), while `Numeric(n)` keeps `n`
  exactly.
- `ShopController.Shop.GetCart`: the rendered items are the cart lines, not
  the populated product documents.
- `ShopController.Shop.GetInvoice`: an order id from the path
  (controllers/shop.js:365) that the database cannot cast to an id makes the
  lookup reject; the rejection goes to `.catch(console.log)`
  (controllers/shop.js:396) and no response is sent, while the model treats
  every id it is given as a number and answers `Failure(NoOrderFound)` for a
  missing order.
- Order ids are numbers. In `getPaymentStatus` an id the database cannot cast
  makes the lookup reject, and the `catch` redirects to the checkout
  (controllers/shop.js:337-340): the same answer the model gives for a missing
  order.
- The client script `public/js/checkout.js`: browser glue that posts the
  checkout request and follows the returned link.
- Prices are integer cents; the source's floating-point sums are not modelled.

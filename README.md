# Click-and-collect shop: cart, checkout and storefront model

A Dafny model of the core of a small click-and-collect shop. It covers three parts:

- **The cart routes** (`/cart`). A visitor's cart is keyed by the `X-Session-Id` header and created on first use. The cart view joins the cart's lines with the products and sums `price × qty`. Add raises an existing line or inserts one. Remove deletes a line only when it lies in the session's cart. Clear is meant to empty the cart; as written it throws first (see Findings).
- **The order routes** (`/order`). Checkout turns the cart into an order in one transaction: it writes one order row, one order line per cart line whose product exists (the lines the JOIN returns), priced at checkout time, and deletes the cart's lines. It then returns a pickup code. Lookup returns an order with its lines. Pickup marks the order with a given code as fulfilled.
- **The storefront page.** It covers the session id kept in `localStorage`, product search and category chips, the cart badge, the "Place order" button, and an add-to-cart made before login, which is replayed after login.

Modules:

- `Common` (`common.dfy`): `Option`, and `Reply`, which is what a route handler answers: a JSON body, an error status with its message, or an exception that escapes the handler.
- `Seqs` (`common.dfy`): an order-preserving `Filter` (`WHERE`, `Array.prototype.filter`) and `FirstIndex` (`rows[0]`).
- `Store` (`store.dfy`): the tables as a class `Tables`. It has one `seq` field per table and one AUTO_INCREMENT counter per table the routes insert into (carts, cart lines, orders, order lines). `Valid()` holds the invariants every route keeps:
  - product ids are unique (the catalog's key);
  - cart, cart line, order and order line ids are at least 1, below their table's counter, and ascending in row order;
  - a session has at most one cart, because find-or-create inserts only for a session without one;
  - every cart line belongs to a cart id already issued (at least 1 and below the cart counter), so a cart created later starts empty;
  - every order line belongs to an order id already issued;
  - every cart line has a quantity of at least 1;
  - a cart has at most one line per product;
  - every order's total equals the sum of its lines.
- `CartRoutes` (`cart.dfy`) and `OrderRoutes` (`order.dfy`): each route handler is a module-level method that takes the tables as `db: Tables` and names the fields it writes in its `modifies` clause. It is specified by pure functions of the old tables (`FindCart`, `WithCart`, `JoinCart`, `AddLine`, `RemoveLine`, `ClearLines`, `SnapshotItems`, `MarkFulfilled`), and lemmas about those functions carry the properties.
- `Client` (`client.dfy`): the page's state as a class `Page`: storage map, catalog, filtered list, pending add, and cart requests sent. The filters and sums are pure functions.
- `Storefront` (`storefront.dfy`): lemmas that connect what the page shows with what the routes compute.

Modelling choices:

- Prices are integer cents.
- A missing header is "". A missing or falsy body field is `None` or `Some(0)`.
- Tables are read in row order where SQL gives no `ORDER BY`.
- Database errors inside the checkout transaction are an injected `DbFault`: the index of the statement that throws, and its message. On any failure the rows are rolled back to the state at `beginTransaction`. The AUTO_INCREMENT counters are not rolled back, so ids taken by rolled-back inserts are not reused.
- `Math.random()` becomes a parameter: the string `Math.random().toString(36)` produced, which is "0" or "0." followed by base-36 digits.
- `crypto.randomUUID()` becomes a parameter: the id it would have generated.
- `randomCode(6)` (order.js:4-6) is named as if it gave six characters, but it gives fewer when the random number has fewer base-36 fraction digits. `OrderRoutes.ShortRenderingGivesShortCode` shows the one-character case. Nothing in the routes relies on the length, so the model keeps the code as written.

## Model

| member | source | states |
|---|---|---|
| CartRoutes.FindCart | backend/src/routes/cart.js:6-7 | None exactly when no cart row has the session id; otherwise a cart row with that id and session exists |
| CartRoutes.FindCartUnique | backend/src/routes/cart.js:6-7 | with sessions unique, any cart row of the session is the one the lookup finds |
| Seqs.FirstIndex | backend/src/routes/cart.js:6-7 | `rows[0]` of a `WHERE`: None exactly when no row satisfies the condition; otherwise the index of a row that does, with none before it |
| CartRoutes.WithCartFinds | backend/src/routes/cart.js:5-10 | after `ensureCart` the session's cart is found: the existing one, or the new row under the next id |
| CartRoutes.WithCartIdempotent | backend/src/routes/cart.js:5-10 | a second `ensureCart` for the same session changes nothing |
| CartRoutes.WithCartKeepsSessionsUnique | backend/src/routes/cart.js:5-10 | find-or-create keeps cart ids ascending below the counter (which advances exactly on insert) and keeps at most one cart per session |
| CartRoutes.FoundCartIssued | backend/src/routes/cart.js:6-7 | a cart found for a session has an issued id: at least 1 and below the counter |
| CartRoutes.EnsureCart | backend/src/routes/cart.js:5-10 | returns the existing cart's id and keeps the counter, or inserts exactly one cart for the session and returns the new id while the counter advances by one; either way the id is the session's cart, at least 1 and below the counter, and the invariants (sessions unique included) hold |
| CartRoutes.JoinRow | backend/src/routes/cart.js:19-24 | a line joins exactly when its product exists; the row copies id, product and qty, takes an existing product's name and price, and has subtotal = price × qty |
| CartRoutes.JoinRowIsThatProduct | backend/src/routes/cart.js:19-24 | with unique product ids, the joined row takes the name and price of the product whose id is the line's product id |
| CartRoutes.JoinCart | backend/src/routes/cart.js:19-26 | membership both ways: each view row comes from a line of the cart whose product exists, every such line appears, and every subtotal is price × qty |
| Seqs.Filter | backend/src/routes/cart.js:19-26 | a `WHERE` keeps exactly the rows satisfying the condition, in table order, as a subsequence |
| Seqs.FilterMultiplicity | frontend/app.js:100-104 | a filter keeps every copy of an element that passes and no copy of one that fails |
| CartRoutes.JoinCartIsJoinableRows | backend/src/routes/cart.js:19-26 | the view is exactly the cart's joinable lines in table order: as many rows as such lines, the k-th row being the join of the k-th line |
| CartRoutes.JoinOfNothing | backend/src/routes/cart.js:19-27 | a cart with no joinable line shows no rows and total 0 |
| CartRoutes.FreshCartJoinsNothing | backend/src/routes/cart.js:8-27 | a cart created under the next id has no lines, so its view has no rows and total 0 |
| CartRoutes.ViewCart | backend/src/routes/cart.js:14-32 | no session gives 400 and no change; otherwise the cart is created if missing (the cart counter advancing by one exactly then) and the reply holds the joined rows and their total; a session without a cart gets the empty view with total 0 |
| CartRoutes.Quantity | backend/src/routes/cart.js:40 | n is at least 1, equals qty when qty ≥ 1, and is 1 when qty is absent, 0 or negative |
| CartRoutes.AddLineEffect | backend/src/routes/cart.js:43-58 | with a line for (cart, product) only that line's qty rises by n; without one, exactly one line (next id, cart, product, n) is appended |
| CartRoutes.AddLineKeepsWellFormed | backend/src/routes/cart.js:43-58 | adding keeps at most one line per (cart, product), ascending ids and positive quantities; the counter advances only on insert |
| CartRoutes.AddLineKeepsLinesInIssuedCarts | backend/src/routes/cart.js:54-57 | adding to an issued cart keeps every line in an issued cart |
| CartRoutes.UpsertLine | backend/src/routes/cart.js:43-58 | the lines become `AddLine` of the old lines, and the counter advances exactly when a row was inserted |
| CartRoutes.AddToCart | backend/src/routes/cart.js:35-63 | a missing session or productId gives 400 and changes no table; otherwise the cart is ensured, the line is upserted with `Quantity(qty)`, the cart counter advances exactly when a cart was created and the line counter exactly when a line was inserted, and the invariants hold |
| CartRoutes.RemoveLine | backend/src/routes/cart.js:74 | a line is kept exactly when it is not the given id in the given cart; the rest keep their order |
| CartRoutes.RemoveLineWithoutMatch | backend/src/routes/cart.js:72-75 | an id that is not a line of the session's cart removes nothing |
| CartRoutes.DeleteLine | backend/src/routes/cart.js:74 | the lines become `RemoveLine` of the old lines and the invariants hold |
| CartRoutes.RemoveFromCart | backend/src/routes/cart.js:66-79 | a missing session or cartItemId gives 400 and no change; otherwise only the matching line of the session's cart is deleted, and the cart counter advances exactly when a cart was created |
| CartRoutes.ClearLines | backend/src/routes/cart.js:90 | a line is kept exactly when it belongs to another cart; order is kept |
| CartRoutes.DeleteCartLines | backend/src/routes/cart.js:90 | the lines become `ClearLines` of the old lines and the invariants hold |
| CartRoutes.ClearedCartJoinsNothing | backend/src/routes/cart.js:90 | after clearing, the cart's view is empty with total 0 |
| CartRoutes.ClearLinesKeepsOtherCarts | backend/src/routes/cart.js:90 | the lines of every other cart are exactly as before, in order |
| CartRoutes.ClearCart | backend/src/routes/cart.js:85-94 | corrected clear: no session gives 400 and no change; otherwise the cart is ensured (the counter advancing exactly when it is created), all its lines are deleted, and the cart row stays |
| CartRoutes.ClearRouteAsWritten | backend/src/routes/cart.js:82-85 | the route as written throws at `getUserIdFromReq` before touching any table |
| CartRoutes.ClearCounterexample | backend/src/routes/cart.js:84-90 | with one line in the session's cart, the route as written leaves 1 line and the corrected clear leaves 0 |
| Store.FilterKeepsCartItemsWellFormed | backend/src/routes/cart.js:74 | deleting any set of cart lines keeps the line table well formed |
| Store.FilterKeepsLinesInIssuedCarts | backend/src/routes/cart.js:74 | deleting any set of cart lines keeps every remaining line in an issued cart |
| OrderRoutes.RandomCode | backend/src/routes/order.js:4-6 | the code has min(len, number of digits) characters, each in [0-9A-Z], and is the upper-cased digits after "0." |
| OrderRoutes.ShortRenderingGivesShortCode | backend/src/routes/order.js:5 | a random number with one base-36 digit (0.5 renders as "0.i") gives the one-character code "I" |
| OrderRoutes.CartTotalIsOrderTotal | backend/src/routes/order.js:35 | for rows with subtotal = price × qty, the cart view's total equals checkout's Σ price × qty |
| OrderRoutes.SnapshotTotal | backend/src/routes/order.js:46-51 | the order lines inserted add up to the order's total |
| OrderRoutes.CheckoutErrorWithoutFault | backend/src/routes/order.js:20-32 | without a database fault, checkout fails with "Cart not found" exactly when there is no cart, with "Cart is empty" exactly when no line joins, and otherwise goes through |
| OrderRoutes.CheckoutKeepsTotals | backend/src/routes/order.js:39-51 | the new order's lines are exactly the snapshot, and every order's total still equals the sum of its lines |
| OrderRoutes.AppendOrderWellFormed | backend/src/routes/order.js:39-43 | inserting the order under the next id keeps order ids ascending and below the counter |
| OrderRoutes.AppendSnapshotWellFormed | backend/src/routes/order.js:46-51 | the inserted order lines get fresh ids and point at the new order |
| OrderRoutes.InsertOrderItems | backend/src/routes/order.js:46-51 | appends one order line per cart line (same product, qty and price, the new order id), or stops at the insert that fails |
| OrderRoutes.PlacedOrderWellFormed | backend/src/routes/order.js:39-51 | the new order and its snapshot lines keep both order tables well formed and every order's total matching its lines |
| OrderRoutes.PlaceOrder | backend/src/routes/order.js:39-51 | on success exactly one new placed order with the total and the code, and one order line per cart line, under the next ids, with the invariants holding; otherwise it fails with the fault's message |
| OrderRoutes.CommitOrder | backend/src/routes/order.js:38-56 | on success: exactly one new placed order with the total and the code; one line per cart line; the cart's lines deleted; the invariants hold; otherwise it fails with the fault's message |
| OrderRoutes.CheckoutTransaction | backend/src/routes/order.js:17-57 | on success the receipt carries the new order id, the total and the code, and the tables are as in `CommitOrder`; otherwise it throws "Cart not found", "Cart is empty" or the fault's message, in statement order; a failure before the order insert changes nothing, counters included |
| OrderRoutes.Rollback | backend/src/routes/order.js:59 | the rows return to those saved at `beginTransaction` while the counters keep the ids already taken, and the invariants hold |
| OrderRoutes.Checkout | backend/src/routes/order.js:10-64 | no session gives 400 and no change; a failure gives 500 and restores every row, and one before the order insert also leaves both order counters as they were; success commits the new state; the invariants hold throughout |
| OrderRoutes.GetOrder | backend/src/routes/order.js:67-78 | 404 exactly when no order has the id; otherwise that order and its lines, whose price × qty sum is the order's total |
| OrderRoutes.MarkFulfilledOnlyThatOrder | backend/src/routes/order.js:87 | the update changes the status of exactly the one order with that id, whatever its previous status |
| OrderRoutes.FulfilledKeepsInvariants | backend/src/routes/order.js:87 | fulfilling an order keeps the orders well formed and every total matching |
| OrderRoutes.PickupRepeats | backend/src/routes/order.js:85-88 | after a pickup the same code finds the same order, whose id is unchanged, and a second pickup changes nothing |
| OrderRoutes.Pickup | backend/src/routes/order.js:81-92 | a missing code gives 400 and an unknown code gives 404, both with no change; otherwise that order becomes fulfilled, nothing else changes, and its id is returned |
| Client.StoredAfterWrite | frontend/app.js:7-10 | after `setItem(key, value)` the key reads back the value (nothing when it is empty) and every other key reads as before |
| Client.SessionIdIsStable | frontend/app.js:6-13 | once `getSessionId` has run, the id is stored, and later calls return that same id and write nothing |
| Client.WithSessionTouchesOnlyItsKey | frontend/app.js:10 | only the session key is ever written, and a stored id is never replaced |
| Client.Page.GetSessionId | frontend/app.js:6-13 | returns the stored id, or stores and returns the generated one; the result is non-empty and stored |
| Client.TrimStart | frontend/app.js:97 | the result is a suffix of the text, what was dropped is all whitespace, and the result does not start with whitespace |
| Client.TrimEnd | frontend/app.js:97 | the result is a prefix of the text, what was dropped is all whitespace, and the result does not end with whitespace |
| Client.Trim | frontend/app.js:97 | the result is a slice `s[a..a + |r|]` of the text with only whitespace before and after it, and it neither starts nor ends with whitespace |
| Client.TrimEmptyIff | frontend/app.js:97-98 | a text trims to "" exactly when it is all whitespace |
| Client.ContainsIffOccurs | frontend/app.js:102-103 | `includes` holds exactly when the query occurs at some position |
| Client.BlankQueryIff | frontend/app.js:97-98 | the normalized query is empty exactly when the input is blank |
| Client.Search | frontend/app.js:96-105 | a blank query shows all products in order; otherwise the order-preserving subsequence of exactly the products whose name or category contains the query, each with as many copies as the catalog has |
| Client.BlankSearchShowsAll | frontend/app.js:97-99 | an all-whitespace search box shows the whole catalog |
| Client.NonBlankSearchFilters | frontend/app.js:100-104 | with a non-blank character, every product shown matches the normalized query |
| Client.Page.DoSearch | frontend/app.js:96-107 | `filtered` becomes the search result over the loaded products |
| Client.ChipFilter | frontend/app.js:259-264 | "All" shows all products; any other chip shows exactly the products whose category (missing read as "") equals it, in order and with their multiplicity |
| Client.Page.ChooseChip | frontend/app.js:257-267 | `filtered` becomes the chip's filter over the loaded products |
| Client.ItemCountBounds | frontend/app.js:189 | with positive quantities the count is at least the number of lines, and 0 exactly when there are none |
| Client.BadgeZeroIffPlaceDisabled | frontend/app.js:187-191 | with positive quantities, the badge shows 0 exactly when "Place order" is disabled |
| Client.LoggedInHasToken | frontend/app.js:364-366 | after a successful login the token is stored and the session id is unchanged |
| Client.Page.constructor | frontend/app.js:88-93 | after `loadProducts` every product is shown, nothing is pending and nothing is sent |
| Client.Page.AddToCart | frontend/app.js:110-126 | without a token the add is parked and no request is sent; with one, exactly one request with the session id, product and qty is sent |
| Client.Page.Login | frontend/app.js:364-375 | a failed login changes nothing; a successful one stores token and name, clears the pending add, and sends it exactly once |
| Client.PendingAddSentOnce | frontend/app.js:110-117 | on any page without a token, for any product, quantity and successful login reply: add, login, login again sends exactly one request, carrying the session id of the logged-in storage, and leaves nothing pending |
| Client.PendingAddExample | frontend/app.js:371-375 | one concrete page: nothing is sent before the login, one request after it, and nothing more after a second login |
| Storefront.JoinedQuantitiesPositive | backend/src/routes/cart.js:19-26 | every row of the cart view has a positive quantity |
| Storefront.BadgeZeroIffPlaceDisabledForView | frontend/app.js:187-191 | for the cart view of a well-formed database, the badge is 0 exactly when "Place order" is disabled |
| Storefront.PlaceEnabledIffCheckoutProceeds | frontend/app.js:241-247 | "Place order" is enabled exactly when checkout of that cart goes through, and when disabled checkout answers the same "Cart is empty" |
| Storefront.ShownTotalIsChargedTotal | backend/src/routes/order.js:35 | the total the cart shows is the total checkout stores and returns |
| Storefront.EmptiedCartShowsNothing | backend/src/routes/order.js:54 | after checkout or clear deletes the cart's lines, the badge is 0, the total is 0 and "Place order" is disabled |

## Definitions

Functions that only compute a value. Each is specified through the lemmas or methods named in the last column, whose rows are in the table above.

| definition | source | specified by |
|---|---|---|
| CartRoutes.WithCart | backend/src/routes/cart.js:5-10 | CartRoutes.WithCartFinds, CartRoutes.WithCartIdempotent, CartRoutes.EnsureCart |
| CartRoutes.ProductIndex | backend/src/routes/cart.js:23 | CartRoutes.JoinRow, CartRoutes.JoinRowIsThatProduct |
| CartRoutes.Total | backend/src/routes/cart.js:27 | CartRoutes.JoinOfNothing, OrderRoutes.CartTotalIsOrderTotal |
| CartRoutes.LineIndex | backend/src/routes/cart.js:43-46 | CartRoutes.AddLineEffect |
| CartRoutes.AddQty | backend/src/routes/cart.js:49-52 | CartRoutes.AddLineEffect |
| CartRoutes.AddLine | backend/src/routes/cart.js:43-58 | CartRoutes.AddLineEffect, CartRoutes.AddLineKeepsWellFormed, CartRoutes.UpsertLine |
| OrderRoutes.Substring | backend/src/routes/order.js:5 | OrderRoutes.RandomCode |
| OrderRoutes.ToUpper | backend/src/routes/order.js:5 | OrderRoutes.RandomCode |
| OrderRoutes.OrderTotal | backend/src/routes/order.js:35 | OrderRoutes.CartTotalIsOrderTotal, OrderRoutes.SnapshotTotal |
| OrderRoutes.StoredUser | backend/src/routes/order.js:41 | OrderRoutes.CheckoutTransaction, OrderRoutes.Checkout (the order row's user) |
| OrderRoutes.SnapshotItems | backend/src/routes/order.js:46-51 | OrderRoutes.SnapshotTotal, OrderRoutes.InsertOrderItems, OrderRoutes.CheckoutKeepsTotals |
| OrderRoutes.CheckoutError | backend/src/routes/order.js:17-56 | OrderRoutes.CheckoutErrorWithoutFault, OrderRoutes.CheckoutTransaction |
| OrderRoutes.FailsBeforeInsert | backend/src/routes/order.js:17-32 | OrderRoutes.CheckoutTransaction, OrderRoutes.Checkout |
| OrderRoutes.OrderIndex | backend/src/routes/order.js:70-72 | Seqs.FirstIndex, OrderRoutes.GetOrder |
| OrderRoutes.CodeIndex | backend/src/routes/order.js:85-86 | Seqs.FirstIndex, OrderRoutes.PickupRepeats, OrderRoutes.Pickup |
| OrderRoutes.MarkFulfilled | backend/src/routes/order.js:87 | OrderRoutes.MarkFulfilledOnlyThatOrder, OrderRoutes.FulfilledKeepsInvariants |
| Store.ItemsOf | backend/src/routes/order.js:73 | Seqs.Filter, OrderRoutes.CheckoutKeepsTotals, OrderRoutes.GetOrder |
| Store.ItemsTotal | backend/src/routes/order.js:46-51 | OrderRoutes.SnapshotTotal, OrderRoutes.CheckoutKeepsTotals |
| Client.Stored | frontend/app.js:7-8 | Client.StoredAfterWrite |
| Client.SessionId | frontend/app.js:6-13 | Client.SessionIdIsStable, Client.Page.GetSessionId |
| Client.WithSession | frontend/app.js:8-11 | Client.SessionIdIsStable, Client.WithSessionTouchesOnlyItsKey |
| Client.Contains | frontend/app.js:102-103 | Client.ContainsIffOccurs |
| Client.ToLower | frontend/app.js:97-103 | Client.Search, Client.BlankQueryIff |
| Client.NormalizeQuery | frontend/app.js:97 | Client.BlankQueryIff |
| Client.Matches | frontend/app.js:101-104 | Client.Search, Client.NonBlankSearchFilters |
| Client.ItemCount | frontend/app.js:189 | Client.ItemCountBounds |
| Client.CartCount | frontend/app.js:187-191 | Client.BadgeZeroIffPlaceDisabled, Storefront.EmptiedCartShowsNothing |
| Client.PromptFor | frontend/app.js:241-247 | Client.BadgeZeroIffPlaceDisabled, Storefront.PlaceEnabledIffCheckoutProceeds, Storefront.EmptiedCartShowsNothing |
| Client.LoggedIn | frontend/app.js:364-366 | Client.LoggedInHasToken, Client.Page.Login |
| Client.LoginSucceeds | frontend/app.js:364 | Client.Page.Login, Client.LoggedInHasToken, Client.PendingAddSentOnce |

## Left out

- Database errors in the cart routes, in order lookup and in pickup (their 500 replies) are not modelled. Only checkout's transaction takes injected faults.
- A failing `rollback` and a failing `getConnection` are not modelled. Neither is the connection release in `finally`.
- Isolation and concurrency are left out: two requests racing on find-or-create, or two checkouts of one cart.
- The schema (foreign keys, unique keys) is not part of this model. Product ids are assumed unique, as the catalog's key: CartRoutes.JoinRow and CartRoutes.JoinCart take the first product with the line's id, and `Tables.Valid()` requires the ids to differ. `pickup_code` is not assumed unique: lookup and pickup take the first row with the code. No unique key on `carts.session_id` is assumed either: the first cart row is taken. The routes themselves keep sessions unique, since find-or-create only inserts for a session without a cart, and `Tables.Valid()` states it.
- OrderRoutes.RandomCode: modelled over the string `Math.random().toString(36)` produced. Floating-point randomness and the distribution of codes are out.
- CartRoutes.Quantity: `qty` is an integer below 2^53. Larger numbers are out: JSON rounds them to a double, and from 10^21 on `parseInt` reads their exponent form ("1e+21" gives 1). `parseInt` on non-numeric text (NaN, which `Math.max(1, NaN)` keeps) is out too, and so is a `productId` that is not an integer.
- Client.ToLower maps ASCII letters only. `toLowerCase` also folds other Unicode letters.
- Client.ChipFilter: `data-cat` is taken as a string. A chip without the attribute is out, because the HTML is not part of this model.
- The page's handling of route replies is out: toasts, dialogs, re-rendering, the drawer, awaiting the badge refresh, and the logout reload.
- The logout handler, registration and `setAuthUI` are out, because they are DOM and storage plumbing without a stated property.
- CartRoutes.FindCart, OrderRoutes.CodeIndex: `session_id` and `pickup_code` are compared exactly, character by character. The column collation is not part of this model; under a case-insensitive collation (MySQL's default) `WHERE session_id=?` and `WHERE pickup_code=?` would also match a value differing only in letter case, which the model does not capture.
- `GET /order/:id` takes the id as an integer. Express hands it over as a string and MySQL coerces it; that coercion is out.
- Prices are integer cents. The `DECIMAL`-to-`Number` conversion and floating-point sums are out.
- `backend/src/routes/auth.js`: its substance is password hashing and token signing by foreign libraries.
- `backend/src/routes/catalog.js`: its search is SQL `LIKE` under a collation this model does not see.
- `backend/src/server.js`: only wiring.
- HTTP status codes other than 400, 404 and 500 are not modelled, nor is the JSON parsing of requests. The success bodies are reduced to the values the routes compute.

## Findings

| source | as written | input that shows it | evidently intended | confidence | as-written member | corrected member |
|---|---|---|---|---|---|---|
| backend/src/routes/cart.js:84 | `getUserIdFromReq(req)` is called, but no such function is defined or imported in the file, so every POST /cart/clear throws a ReferenceError before its try block. The cart is not cleared, and the handler sends no reply (Express 4 does not catch a rejected async handler; the Express version is not part of this model) | a session "s1" whose cart holds one line for product 7; POST /cart/clear with `X-Session-Id: s1` | delete every line of the session's cart and answer `{ success: true }` | not executed | CartRoutes.ClearRouteAsWritten, CartRoutes.ClearCounterexample | CartRoutes.ClearCart |

On the same route, line 89 passes the user id to `ensureCart` as a third argument. `ensureCart` (lines 5-10) does not take that argument, so the corrected clear is keyed by the session alone.

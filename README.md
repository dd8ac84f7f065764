# Shopping cart, checkout and dashboard logic of a small e-commerce demo

This Dafny project models the parts of a small storefront that do more than render markup or
call the database:

- the client-side **cart** held at the root of the storefront (`addToCart`, `updateCartQuantity`,
  `removeFromCart` and the badge count);
- the **cart page**: subtotal, the flat 10% discount, the order payload, order placement with
  its success and failure effects, clear-cart, and the −/+ quantity buttons;
- the **catalog page**: case-insensitive name search, pages of eight, and the current-page state;
- the **admin dashboard**: revenue and stock sums, the last-seven-orders charts, per-order item
  counts, rendering of order lines whose product was deleted, product deletion, the order
  accordion and product creation;
- the **product page**: the quantity stepper and the stock-guarded add-to-cart button;
- the **order API**: `createOrder` refuses a missing or empty line list with 400. Otherwise it
  stores exactly what was submitted. `getOrders` returns every stored order.

Files, one module each:

| file | module | models |
|---|---|---|
| `shop.dfy` | `Shop` | shared entities: `Product`, `CartItem`, `Line`, `Order`, `OrderRequest` |
| `cart_state.dfy` | `CartState` | `frontend/src/App.jsx` |
| `cart_page.dfy` | `CartPage` | `frontend/src/pages/Cart.jsx` |
| `catalog.dfy` | `Catalog` | `frontend/src/pages/Home.jsx` |
| `admin.dfy` | `AdminDashboard` | `frontend/src/pages/Admin.jsx` |
| `product_page.dfy` | `ProductPage` | `frontend/src/pages/Product.jsx` |
| `order_controller.dfy` | `OrderController` | `backend/src/controllers/order.controller.js` |

Each cart transition is a pure function on `seq<CartItem>`. The class `CartState.Cart` holds the
state that `setCart` replaces, and its methods apply those functions. Page state (`isProcessing`,
`page`, `expandedOrderId`, `deleteTarget`, `quantity`, `adding`, ...) lives in one class per page.
The order collection is the class `OrderController.OrderStore`, whose `orders` sequence grows by
one per accepted order. Network outcomes, confirmation dialogs and timers are parameters or
separate methods: `delivered`, `confirmed`, `deleted`, `created`, `AddSettled`.

A product's `_id` is a string, and the empty string stands for a missing id (JavaScript
truthiness). Prices are whole currency units. `Math.floor(total * 0.1)` is `total / 10`; Dafny's
division rounds toward negative infinity for a positive divisor, as `Math.floor` does.

The stock check in `addToCart` is subtle. When merging into an existing entry, the check uses the
*incoming* product's stock, but the entry keeps its *stored* snapshot. `updateCartQuantity`
checks the stored snapshot. So "every quantity is within its snapshot's stock" is preserved by
`updateCartQuantity` and `removeFromCart` unconditionally. `addToCart` preserves it only when the
incoming stock agrees with the snapshot (`AddPreservesWellFormed`). `StaleSnapshotBreaksStockBound`
exhibits a cart that loses the bound otherwise.

A few behaviours of the code worth stating plainly:

- `updateCartQuantity` leaves an entry unchanged when the new quantity exceeds its stock; it does
  not clamp.
- The dashboard's item count counts a missing or zero quantity as 1.
- Revenue counts a missing total as 0.

`AdminDashboard.ViewLine` takes the product list that the order lines are resolved against. That
list stands for the product store at the moment the orders are fetched, which is what the `populate`
join of `getOrders` reads. `DeletedProductRendersRemoved` therefore describes orders fetched after a
deletion.

## Model

| member | source | states |
|---|---|---|
| `CartState.FindEntry` | frontend/src/App.jsx:22 | no result exactly when no entry has the id; otherwise the first entry of the cart carrying that id |
| `CartState.Increase` | frontend/src/App.jsx:29-33 | same length; each entry for the id gains the quantity, every other entry is unchanged |
| `CartState.AddToCart` | frontend/src/App.jsx:18-44 | a non-positive quantity or a product without id leaves the cart unchanged; otherwise the cart keeps its length or gains exactly `{product, quantity}` at the end |
| `CartState.SetQuantity` | frontend/src/App.jsx:53-62 | same length; an entry for the id takes the new quantity unless it exceeds that entry's stored stock; other entries unchanged |
| `CartState.RemoveFromCart` | frontend/src/App.jsx:66-68 | keeps exactly the entries whose id differs; no entry for the id remains; the result is a subsequence of the cart |
| `CartState.UpdateCartQuantity` | frontend/src/App.jsx:46-64 | a quantity ≤ 0 gives the same cart as removeFromCart; a positive one keeps the length and every entry's product |
| `CartState.CartCount` | frontend/src/App.jsx:72 | sum of the quantities; at least the number of entries when every entry holds at least one unit |
| `CartState.UniqueFind` | frontend/src/App.jsx:22 | with unique ids, `find` returns the entry at the id's position |
| `CartState.AddToExisting` | frontend/src/App.jsx:22-33 | merging into entry k: unchanged if the merged quantity exceeds the incoming stock, else only entry k's quantity grows, keeping its old snapshot, order and length |
| `CartState.AddNew` | frontend/src/App.jsx:36-42 | a product not in the cart is appended at the end, or the cart is unchanged when quantity > stock |
| `CartState.AddPreservesUniqueIds` | frontend/src/App.jsx:22-42 | addToCart keeps at most one entry per product id |
| `CartState.AddPreservesWellFormed` | frontend/src/App.jsx:25-42 | unique ids and 1 ≤ quantity ≤ stored stock survive addToCart when the incoming stock agrees with the stored snapshot |
| `CartState.StaleSnapshotBreaksStockBound` | frontend/src/App.jsx:25-31 | a concrete cart where a merge checked against a larger incoming stock leaves quantity 3 over a stored stock of 1 |
| `CartState.RemoveAbsent` | frontend/src/App.jsx:66-68 | removing an id the cart does not hold changes nothing |
| `CartState.RemoveDistributes` | frontend/src/App.jsx:66-68 | the filter distributes over concatenation, so relative order is kept |
| `CartState.RemoveIdempotent` | frontend/src/App.jsx:66-68 | removing twice equals removing once |
| `CartState.RemoveAt` | frontend/src/App.jsx:66-68 | with unique ids, removing entry k's id deletes exactly entry k |
| `CartState.RemovePreservesWellFormed` | frontend/src/App.jsx:66-68 | removeFromCart keeps unique ids and the stock bound |
| `CartState.UpdateAt` | frontend/src/App.jsx:52-63 | with unique ids and n > 0: entry k takes quantity n when n ≤ its stored stock, else the cart is unchanged; other entries unchanged |
| `CartState.UpdateAbsent` | frontend/src/App.jsx:52-63 | a positive update for an id not in the cart changes nothing |
| `CartState.UpdatePreservesWellFormed` | frontend/src/App.jsx:46-64 | updateCartQuantity keeps unique ids and the stock bound for any new quantity |
| `CartState.AddCount` | frontend/src/App.jsx:29-42 | an addToCart that changes the cart raises the badge count by exactly the quantity |
| `CartState.RemoveCount` | frontend/src/App.jsx:66-68 | removing entry k lowers the badge count by its quantity |
| `CartState.Cart.constructor` | frontend/src/App.jsx:15 | the cart starts empty |
| `CartState.Cart.Add` | frontend/src/App.jsx:18-44 | new items are AddToCart of the old; the cart invariant is kept when the snapshot agrees |
| `CartState.Cart.UpdateQuantity` | frontend/src/App.jsx:46-64 | new items are UpdateCartQuantity of the old; the cart invariant is kept |
| `CartState.Cart.Remove` | frontend/src/App.jsx:66-68 | new items are RemoveFromCart of the old; the cart invariant is kept |
| `CartState.Cart.Clear` | frontend/src/pages/Cart.jsx:29 | `setCart([])` empties the cart |
| `CartPage.Subtotal` | frontend/src/pages/Cart.jsx:20-23 | 0 for the empty cart; non-negative when prices and quantities are |
| `CartPage.SubtotalConcat` | frontend/src/pages/Cart.jsx:20-23 | the subtotal of two carts joined is the sum of their subtotals |
| `CartPage.Discount` | frontend/src/pages/Cart.jsx:24 | the floor of a tenth: 10·d ≤ total < 10·d + 10; 0 ≤ d ≤ total for a non-negative total |
| `CartPage.FinalTotal` | frontend/src/pages/Cart.jsx:24-25 | nine tenths of the subtotal rounded up; 0 ≤ final ≤ subtotal for a non-negative subtotal |
| `CartPage.WorkedExample` | frontend/src/pages/Cart.jsx:20-25 | the cart 100×2, 50×1 gives 250, 25 and 225 |
| `CartPage.Payload` | frontend/src/pages/Cart.jsx:38-41 | one line per cart entry, in cart order, carrying that entry's product id and quantity |
| `CartPage.CheckoutDecision` | frontend/src/pages/Cart.jsx:37-43 | the server accepts the checkout exactly when the cart is non-empty, storing the payload and the final total |
| `CartPage.PayloadItemCount` | frontend/src/pages/Admin.jsx:223 | the dashboard's item total of a checked-out order equals the cart's badge count when no quantity is 0 |
| `CartPage.Checkout.constructor` | frontend/src/pages/Cart.jsx:17-18 | not processing, no order placed |
| `CartPage.Checkout.PlaceOrder` | frontend/src/pages/Cart.jsx:34-54 | success exactly when the request is delivered and the cart is non-empty; on success the cart is empty, orderPlaced holds and one order is stored; on failure the cart, orderPlaced and the store are unchanged; isProcessing ends false |
| `CartPage.Checkout.ClearCart` | frontend/src/pages/Cart.jsx:27-32 | the cart becomes empty only when confirmed |
| `CartPage.Checkout.Decrement` | frontend/src/pages/Cart.jsx:141-148 | the − button never removes an entry; it lowers quantity q > 1 to q − 1 on a well-formed cart |
| `CartPage.Checkout.Increment` | frontend/src/pages/Cart.jsx:156-167 | a disabled + (quantity ≥ stock) does nothing; otherwise on a well-formed cart the entry gains one unit and the cart stays well-formed |
| `Catalog.IncludesIff` | frontend/src/pages/Home.jsx:22-24 | `includes` holds exactly when the term occurs at some position |
| `Catalog.IncludesEmpty` | frontend/src/pages/Home.jsx:22-24 | the empty term occurs in every name |
| `Catalog.FilterProducts` | frontend/src/pages/Home.jsx:22-24 | keeps exactly the products whose lower-cased name contains the lower-cased term, as a subsequence of the catalog |
| `Catalog.FilterConcat` | frontend/src/pages/Home.jsx:22-24 | the filter distributes over concatenation, so relative order is kept |
| `Catalog.EmptySearchKeepsAll` | frontend/src/pages/Home.jsx:22-24 | an empty search keeps every product |
| `Catalog.TotalPages` | frontend/src/pages/Home.jsx:31 | ⌈n / 8⌉: the pages hold all n items and the last page is non-empty |
| `Catalog.PageOf` | frontend/src/pages/Home.jsx:33-36 | page p is the slice [(p−1)·8, p·8) of the list, at most 8 items, empty past the end |
| `Catalog.PagesUpToPrefix` | frontend/src/pages/Home.jsx:33-36 | pages 1..k concatenated are the first min(8k, n) items |
| `Catalog.PagesCoverList` | frontend/src/pages/Home.jsx:31-36 | pages 1..totalPages concatenated give back the filtered list |
| `Catalog.Home.Visible` | frontend/src/pages/Home.jsx:33-36 | at most 8 products are shown |
| `Catalog.Home.constructor` | frontend/src/pages/Home.jsx:8-11 | page 1, no products yet |
| `Catalog.Home.Load` | frontend/src/pages/Home.jsx:13-20 | the fetched catalog replaces the products; page stays 1 |
| `Catalog.Home.Previous` | frontend/src/pages/Home.jsx:168 | page becomes max(1, page − 1), never below 1 |
| `Catalog.Home.Next` | frontend/src/pages/Home.jsx:186 | page becomes min(totalPages, page + 1), never above totalPages |
| `Catalog.Home.Search` | frontend/src/pages/Home.jsx:27-29 | a new search term resets the page to 1 |
| `AdminDashboard.TotalRevenue` | frontend/src/pages/Admin.jsx:79-82 | sum of totals, a missing total counting 0; non-negative when every total is |
| `AdminDashboard.RevenueAppend` | frontend/src/pages/Admin.jsx:79-82 | one more order raises the revenue by its amount |
| `AdminDashboard.StockUnits` | frontend/src/pages/Admin.jsx:135 | sum of stocks; non-negative when every stock is |
| `AdminDashboard.Recent` | frontend/src/pages/Admin.jsx:92 | `slice(-7)`: the last min(7, n) orders, a suffix of the list |
| `AdminDashboard.RevenueChartData` | frontend/src/pages/Admin.jsx:92-95 | min(7, n) points labelled 1..k, carrying the totals of the last k orders in list order |
| `AdminDashboard.VolumeChartData` | frontend/src/pages/Admin.jsx:97-100 | min(7, n) points labelled 1..k, carrying the line counts (not quantities) of the last k orders |
| `AdminDashboard.OrderItemCount` | frontend/src/pages/Admin.jsx:223 | sum of quantities with a missing or 0 quantity counted as 1; at least the line count when every counted quantity is ≥ 1 |
| `AdminDashboard.FindProduct` | frontend/src/pages/Admin.jsx:266-268 | no result exactly when no product has the id; otherwise the first product of the list with that id |
| `AdminDashboard.ViewLine` | frontend/src/pages/Admin.jsx:265-282 | quantity is `quantity OR 1`, line total is price × quantity; a resolved product shows its price and its name, or "Removed product" when the name is empty; an unresolved product shows "Removed product" with price 0 and total 0 |
| `AdminDashboard.RemoveProduct` | frontend/src/pages/Admin.jsx:63 | keeps every copy of each product whose id differs and no product with the id, as a subsequence of the list |
| `AdminDashboard.RemoveProductConcat` | frontend/src/pages/Admin.jsx:63 | the delete filter distributes over concatenation, so every copy of a surviving product is kept, in order |
| `AdminDashboard.DeletedProductRendersRemoved` | frontend/src/pages/Admin.jsx:266-281 | after its product is deleted, an order line renders as "Removed product" with total 0 |
| `AdminDashboard.RemoveProductStockUnits` | frontend/src/pages/Admin.jsx:63 | deleting products never raises the stock units when stocks are non-negative |
| `AdminDashboard.Toggle` | frontend/src/pages/Admin.jsx:75-77 | the id ends open exactly when it was not open, and nothing is open exactly when it was |
| `AdminDashboard.ToggleTwice` | frontend/src/pages/Admin.jsx:75-77 | toggling twice restores "none open" or "this one open"; from another open order it ends with none open |
| `AdminDashboard.Dashboard.constructor` | frontend/src/pages/Admin.jsx:24-56 | fetched orders and products, nothing expanded or targeted, default form |
| `AdminDashboard.Dashboard.RequestDelete` | frontend/src/pages/Admin.jsx:331 | the product becomes the delete target; every other field is unchanged |
| `AdminDashboard.Dashboard.CancelDelete` | frontend/src/pages/Admin.jsx:73 | the delete target is cleared; every other field is unchanged |
| `AdminDashboard.Dashboard.ConfirmDelete` | frontend/src/pages/Admin.jsx:58-71 | without a target nothing changes; otherwise the target is cleared and isDeleting ends false; products lose exactly the target's id on success and are unchanged on failure |
| `AdminDashboard.Dashboard.ToggleOrder` | frontend/src/pages/Admin.jsx:75-77 | the expanded order becomes Toggle of the previous one; every other field is unchanged |
| `AdminDashboard.Dashboard.EditForm` | frontend/src/pages/Admin.jsx:361-404 | the form takes the edited contents; every other field is unchanged |
| `AdminDashboard.Dashboard.SubmitProduct` | frontend/src/pages/Admin.jsx:347-360 | on success the new product is prepended, stock units grow by its stock, the form resets to the defaults with stock 1; on failure products, form and the dialog are unchanged; isAdding ends false; orders, the delete target, the expanded order and isDeleting are unchanged |
| `AdminDashboard.Dashboard.DismissAdded` | frontend/src/pages/Admin.jsx:434 | the "Product added" dialog closes; every other field is unchanged |
| `ProductPage.ProductView.constructor` | frontend/src/pages/Product.jsx:19-21 | quantity 1, not adding |
| `ProductPage.ProductView.Decrement` | frontend/src/pages/Product.jsx:137 | quantity becomes max(1, q − 1), so it stays ≥ 1 |
| `ProductPage.ProductView.Increment` | frontend/src/pages/Product.jsx:146 | quantity grows by one with no stock bound |
| `ProductPage.ProductView.HandleAddToCart` | frontend/src/pages/Product.jsx:33-42 | onAddToCart is called exactly when quantity ≤ stock, once, with the current quantity, and the button is then disabled; otherwise neither the cart nor `adding` changes |
| `ProductPage.ProductView.ClickAdd` | frontend/src/pages/Product.jsx:156-158 | a click reaches the handler only while the button is enabled: the product is added exactly when no add is in flight and quantity ≤ stock; a click while adding, or on an out-of-stock product, changes nothing |
| `ProductPage.ProductView.AddSettled` | frontend/src/pages/Product.jsx:41 | the timer re-enables the add button |
| `OrderController.Decide` | backend/src/controllers/order.controller.js:3-16 | 400 "Cart is empty" exactly when the line list is missing or empty; otherwise 201 with an order holding the submitted lines and total unchanged |
| `OrderController.StoredAsSubmitted` | backend/src/controllers/order.controller.js:10-13 | a non-empty submission is stored with the same line count, lines and total, whatever the total is |
| `OrderController.OrderStore.constructor` | backend/src/models/Order.js:3-18 | the collection starts empty |
| `OrderController.OrderStore.CreateOrder` | backend/src/controllers/order.controller.js:3-16 | a refused request stores nothing; an accepted one appends exactly its order |
| `OrderController.OrderStore.GetOrders` | backend/src/controllers/order.controller.js:18-21 | returns every stored order and changes nothing |

## Left out

- Product description and image, and the orders' server-assigned `_id` and `createdAt`. They are
  displayed, and the order `_id` is also the key of the order accordion. `ToggleOrder` takes
  that key as a plain string, unrelated to any modelled order.
- The `populate` join of `getOrders`. Order lines keep their product id, and the dashboard
  resolves each id by `find` over the product list given to `ViewLine`.
- `AdminDashboard.ViewLine`: after a product is deleted on the open dashboard, the code keeps
  showing the product that was populated into the orders when they were fetched, until the page
  reloads. `ConfirmDelete` filters only `products` and does not fetch the orders again. The model
  resolves lines against one product list, so it does not capture this stale display.
- Casting and validation by the database library in `Order.create`: a product id that is not an
  object id, or a non-numeric quantity, is not modelled.
- HTTP calls, `toast`, `alert`, `window.confirm`, `navigate` and `setTimeout`. They appear only as
  outcome parameters (`delivered`, `confirmed`, `deleted`, `created`) and as the `AddSettled`
  method.
- `CartPage.Checkout.PlaceOrder`: a request that reached the server but whose answer was lost is
  not modelled. `delivered == false` leaves the store unchanged.
- Double submission while a request is in flight: this is concurrency. React's batching and
  render timing are not modelled either: each handler is one atomic state change.
- Floating point. `parseFloat` prices on the add-product form, `Math.round(price * 1.2)` and
  number formatting are not modelled, and prices are whole units. `CartPage.Discount` is exact
  integer division: `Math.floor(total * 0.1)` agrees with it for non-negative integer totals below 10^15.
- `Catalog.Matches` lower-cases ASCII letters only. Unicode `toLowerCase` is not modelled.
- Chart labels `#k` are kept as the number k; string formatting is not modelled.
- Loading flags and skeletons, the product page's not-found state, tab switching, chart rendering,
  the navbar, product cards, the 404 page, routing and database connection retries are not
  modelled. They are presentation, wiring or I/O.
- Server-side stock checks and stock decrements are not modelled, because the code has none.

# Merita ordering system — a Dafny model

The Merita system lets sales agents take orders for shop customers ("magazine") and lets
administrators review them. Its core has three parts:

- the Express/Mongoose backend:
  - the Product, Order and User schemas;
  - the order routes: create an order; list orders with a search and a day filter;
  - the catalogue routes: create a product; partially update a product;
  - the admin routes: orders of one shop; delete an order; sales statistics over a date range;
  - the login route;
- the React cart state (`CartContext`) and the pages that work on it:
  - the product list and the product card;
  - the cart page;
  - the agent form that submits an order;
  - the add-product form;
- the admin pages (dashboard, statistics, orders by shop). They aggregate fetched orders in the browser.

Each source file is one Dafny module. The modules are:

- `Common`, `Text`, `Lists` and `Dicts`: shared vocabulary.
  - `Common`: missing JSON fields, JavaScript's `||` and `??` fallbacks, left folds, timestamps.
  - `Text`: trimming (the ASCII blanks plus the Unicode spaces `trim` strips), lower-casing, substring search.
  - `Lists`: `filter`, a stable sort, `reverse`, `[...new Set(xs)]`.
  - `Dicts`: a JavaScript object used as a counter, as an insertion-ordered list of entries.
- `ProductModel`, `OrderModel` and `UserModel`: the schemas, each with what a `save` validates and keeps. The order schema is strict, so it drops the undeclared `customPrice` and `image` of a line. It also drops the product `barcode`, which the schema never declares. Every field of a line may be missing, its name included. The admin pages tally a nameless line under the key "undefined" (`OrderModel.ItemName`) and show it with an empty name (`AdminDashboard.Detail`).
- `Store`: a class holding the two collections. The route methods change it.
- `OrdersRoute`, `ProductsRoute`, `AdminRoute`, `AdminStatsRoute` and `AuthRoute`: one per route file.
- `CartContext`: a `Cart` class. Its fields are the React state; its methods are the context's operations.
- `CartPage`, `AgentInfo`, `AddProduct`, `ProductCard`, `ProductsPage`, `AdminDashboard`, `AdminStatsPage` and `MagazineOrders`: the pages. A page with state is a class whose methods are its fetch handlers.

The different files compute an order's units and revenue with different fallbacks:

| where | unitsPerBox when falsy | price used |
|---|---|---|
| the create route | 1 | `customPrice ?? price ?? 0` |
| the statistics route | 0 | `price` (must be present) |
| the dashboard | 0 | `price \|\| 0` |
| the statistics page | boxes only | `price \|\| 0` |
| the cart page | 1 | `customPrice`; `quantity` is ignored |

The model keeps each file's own rule. Lemmas show where the rules agree and give concrete inputs where they differ (`AdminStatsRoute.RevenueIgnoresCustomPrice`, `CartPage.QuantityMakesTotalsDiffer`, `AdminStatsPage.RevenueCountsBoxes`, `OrderModel.UnitsFallbackGap`).

Other conventions:

- Timestamps are integers: milliseconds since the epoch.
- A day filter `[d, d + 86 399 999]` is `setHours(23, 59, 59, 999)`.
- The statistics route ends its range at `T23:59:59`, `d + 86 399 000`.
- The magazine-orders route takes `endDate` as given, with no end-of-day extension. This follows the code.
- Password checking (`bcrypt.compare`) is a parameter `matches` of the login function.
- Network answers are parameters of the page methods: `None` for a failed request.
- The id and the clock of a new document are parameters of the route methods.

## Model

| member | source | states |
|---|---|---|
| ProductModel.CastStock | backend/models/Product.js:13-17 | a missing `stoc` becomes "in stoc"; a given value is accepted exactly when it is one of the two enum names, and is stored under that name |
| ProductModel.CastStockName | backend/models/Product.js:13-17 | each enum value passes the enum validator unchanged |
| ProductModel.NewProduct | backend/models/Product.js:3-20 | save succeeds exactly when name and category are non-empty, price and unitsPerBox are present and `stoc` is valid; the saved product has those values, "" for a missing description or image, and the validated stock |
| UserModel.NewUser | backend/models/User.js:3-7 | save succeeds exactly when username and password are non-empty and the role is missing, "admin" or "client"; a missing role becomes client |
| OrderModel.LineUnits | backend/routes/orders.js:49-53 | definition: loose units plus boxes times units per box, the fallback for `unitsPerBox` chosen by the caller; `OrderModel.UnitsFallbackGap` states how the two fallbacks differ |
| OrderModel.ItemName | frontend/src/pages/AdminStats.jsx:39-40 | definition: a line's name as an object key, "undefined" when missing; the tallies keyed by it are described by `AdminDashboard.ShopStatsMeaning` and `AdminStatsPage.ProductCountMeaning` |
| OrderModel.UnitsFallbackGap | backend/routes/orders.js:48-55 | the create route's unit count exceeds the statistics route's by the boxes exactly when `unitsPerBox` is falsy |
| OrderModel.CastItem | backend/models/Order.js:20-28 | a stored line keeps id, name, price, boxes, unitsPerBox and quantity and loses customPrice and image |
| OrderModel.CastItems | backend/models/Order.js:20-28 | the stored items are the sent items, line for line, each cast by the schema |
| OrderModel.NewOrder | backend/models/Order.js:3-59 | save succeeds exactly when the six required texts are non-empty; the saved order has the given fields, the cast items and `createdAt` defaulting to now |
| Store.FindProduct | backend/routes/orders.js:37 | the product found has the requested id; there is none exactly when no product has that id |
| Store.ProductIndex | backend/routes/products.js:75 | the index found holds a product with the requested id; there is none exactly when no product has that id |
| OrdersRoute.CheckItem | backend/routes/orders.js:32-45 | definition: the three checks on one item, in order; `OrdersRoute.FirstItemError` states their meaning |
| OrdersRoute.Validate | backend/routes/orders.js:21-45 | definition: the required-field check, then the first failing item; `OrdersRoute.CreateOrder` states its effect |
| OrdersRoute.FirstItemError | backend/routes/orders.js:32-45 | no error exactly when every item passes its checks; otherwise the error is the first failing item's |
| OrdersRoute.UnitPrice | backend/routes/orders.js:52 | the custom price when present, even 0; otherwise the list price, otherwise 0 |
| OrdersRoute.LineTotal | backend/routes/orders.js:49-54 | definition: a line's units times its unit price; `OrdersRoute.OrderTotalNonNegative` and `AdminStatsRoute.RevenueMatchesTotal` state its meaning |
| OrdersRoute.OrderTotal | backend/routes/orders.js:48-55 | definition: the stored total, a left fold of the line totals; `OrdersRoute.OrderTotalAppend` and `OrdersRoute.OrderTotalNonNegative` state its meaning |
| OrdersRoute.OrderTotalAppend | backend/routes/orders.js:48-55 | the total of two item lists together is the sum of their totals |
| OrdersRoute.OrderTotalNonNegative | backend/routes/orders.js:48-55 | with non-negative units and prices the order total is non-negative |
| OrdersRoute.MaxOrderNumber | backend/routes/orders.js:58 | the number found belongs to a stored order and no stored order has a larger one |
| OrdersRoute.NextOrderNumber | backend/routes/orders.js:58-59 | the next number exceeds every stored number, is 1 for an empty store, and is otherwise one more than a stored number |
| OrdersRoute.NextNumberKeepsUnique | backend/routes/orders.js:58-59 | adding an order under the next number keeps order numbers unique |
| OrdersRoute.SavedOrder | backend/routes/orders.js:62-73 | the saved order is well formed and holds the request's texts, the cast items, the computed total, the number and the creation time |
| OrdersRoute.CreateOrder | backend/routes/orders.js:8-79 | rejects exactly when validation fails, with the first reason and no change; otherwise appends the saved order under the next number; products never change and the store invariants hold |
| OrdersRoute.ListOrders | backend/routes/orders.js:90-111 | the result holds exactly the stored orders that match the search and the day, each as often as stored, newest first |
| ProductsRoute.NormaliseStockText | backend/routes/products.js:67-73 | definition: trim, lower-case, then "in" before "out" with "in stoc" as default; `ProductsRoute.NormaliseStockName`, `ProductsRoute.NormaliseStockStable` and `ProductsRoute.PostPutAgree` state its meaning |
| ProductsRoute.NormaliseStockName | backend/routes/products.js:25-31 | each enum name normalises to itself |
| ProductsRoute.NormaliseStockStable | backend/routes/products.js:67-73 | normalising ignores surrounding spaces and case, and a normalised status normalises to itself |
| ProductsRoute.NormaliseEmpty | backend/routes/products.js:67-73 | the empty text normalises to "in stoc" |
| ProductsRoute.PostStockStatus | backend/routes/products.js:25-31 | a missing, non-string or empty `stoc` keeps "in stoc" |
| ProductsRoute.PostPutAgree | backend/routes/products.js:25-31 | POST and PUT give every string the same stock status |
| ProductsRoute.Barcode | backend/routes/products.js:41 | no barcode exactly when the sent one is missing or empty; otherwise the trimmed text |
| ProductsRoute.TrimmedOrEmpty | backend/routes/products.js:35-39 | "" for a missing or empty text, else the trimmed text |
| ProductsRoute.PostDoc | backend/routes/products.js:33-42 | definition: the document POST / builds; `ProductsRoute.CreateOutcome` states the product it stores |
| ProductsRoute.SaveDoc | backend/routes/products.js:44-45 | definition: `save` of that document under a new id; `ProductsRoute.CreateOutcome` states when it fails |
| ProductsRoute.CreateOutcome | backend/routes/products.js:17-50 | 400 exactly when a required field is missing; success exactly when the trimmed name and category are non-empty; any other failure is a 500; the created product holds the trimmed texts, the numbers and the normalised stock |
| ProductsRoute.CreateIgnoresBarcode | backend/routes/products.js:41 | the created product does not depend on the barcode sent |
| ProductsRoute.BlankNameFailsOnSave | backend/routes/products.js:21-23 | a name of spaces passes the route's check and fails validation with a 500 |
| ProductsRoute.NoBreakNameFailsOnSave | backend/routes/products.js:33-44 | a name of no-break spaces, which `trim` strips as well, also fails validation with a 500 |
| ProductsRoute.CreateProduct | backend/routes/products.js:17-50 | the result is the outcome above; only a success appends the product; orders never change |
| ProductsRoute.TrimOpt | backend/routes/products.js:58-64 | a present text is trimmed, a missing one stays missing |
| ProductsRoute.BuildUpdate | backend/routes/products.js:58-73 | fails with a 500 exactly when `stoc` is not a string; otherwise each field is in the update exactly when it is in the body: the texts trimmed, the numbers as sent, the barcode trimmed or null, the stock normalised to one of the two statuses |
| ProductsRoute.ApplyUpdate | backend/routes/products.js:75 | definition: `$set` of the present fields; `ProductsRoute.UpdateChangesPresentFields` and `ProductsRoute.UpdateIdempotent` state its meaning |
| ProductsRoute.UpdateChangesPresentFields | backend/routes/products.js:53-84 | an update replaces exactly the fields present, each trimmed or normalised, and keeps the id and every other field |
| ProductsRoute.EmptyUpdateIsIdentity | backend/routes/products.js:58-75 | an empty body leaves the product unchanged |
| ProductsRoute.UpdateIdempotent | backend/routes/products.js:75 | applying the same update twice equals applying it once |
| ProductsRoute.UpdateIgnoresBarcode | backend/routes/products.js:65 | the stored product does not depend on the barcode sent |
| ProductsRoute.UpdateCanBlankName | backend/routes/products.js:75 | an update without validators stores a name of spaces as "" |
| ProductsRoute.UpdateProduct | backend/routes/products.js:53-84 | a body that makes `trim` throw gives 500, an unknown id 404, both with no change; otherwise exactly the product with that id is replaced by the updated one |
| AdminRoute.MagazineOrders | backend/routes/admin.js:43-65 | 400 exactly when the shop name is missing or empty; otherwise exactly the orders of that shop within the optional bounds, each as often as stored, newest first |
| AdminRoute.RemoveOrder | backend/routes/admin.js:70-73 | definition: `findByIdAndDelete` on the orders; `AdminRoute.RemoveOrderMeaning` states its meaning |
| AdminRoute.RemoveOrderMeaning | backend/routes/admin.js:70-78 | after deletion an order remains exactly when it was stored under another id; unique ids and numbers stay unique |
| AdminRoute.DeleteOrder | backend/routes/admin.js:70-78 | always answers deleted; the orders with that id are removed and nothing else changes |
| AdminStatsRoute.StatsSelection | backend/routes/adminStats.js:13-18 | all orders unless both dates are given; then exactly the orders created from the start day to the last second of the end day |
| AdminStatsRoute.StatsSelectionCounts | backend/routes/adminStats.js:13-20 | each order in the range is found as often as it is stored and no other order is found, so `totalOrders` is the number of stored orders in the range |
| AdminStatsRoute.StatsSelectionAppend | backend/routes/adminStats.js:13-20 | the query distributes over concatenation: the found orders are a subsequence of the stored ones, in stored order |
| AdminStatsRoute.StatsUnits | backend/routes/adminStats.js:29-33 | definition: quantity plus boxes times `unitsPerBox \|\| 0`; `AdminStatsRoute.ItemTotals` and `AdminStatsRoute.ComputeStats` sum it |
| AdminStatsRoute.StatsRevenue | backend/routes/adminStats.js:37 | definition: those units times the stored price; `AdminStatsRoute.RevenueMatchesTotal` and `AdminStatsRoute.RevenueIgnoresCustomPrice` relate it to the stored total |
| AdminStatsRoute.ItemTotals | backend/routes/adminStats.js:28-38 | the revenue, units and boxes of one order are the sums of its lines' values |
| AdminStatsRoute.ComputeStats | backend/routes/adminStats.js:6-52 | the order count is the size of the selection; units, boxes and revenue are sums over every line of every selected order |
| AdminStatsRoute.RevenueMatchesTotal | backend/routes/adminStats.js:22-39 | with no custom prices, quantities and prices present and truthy unitsPerBox, the statistics revenue of an order equals the total stored at creation |
| AdminStatsRoute.RevenueIgnoresCustomPrice | backend/routes/adminStats.js:22-39 | a line with a custom price counts 12 in the statistics against 18 in the stored total |
| AuthRoute.FindUser | backend/routes/auth.js:20 | finds the first user with that username, and none exactly when no user has it |
| AuthRoute.Login | backend/routes/auth.js:9-35 | 400 exactly when either credential is missing or empty; "not found" exactly when no user has the name; success only with a matching password, answering that user's id, username and role; "incorrect password" only with a non-matching one; status 200 exactly when the first user with that name has a matching password, 400 exactly for a missing credential, 401 otherwise |
| AuthRoute.LoginByAccount | backend/routes/auth.js:9-35 | with unique usernames, logging in as a stored user succeeds exactly when the password matches that user's hash |
| CartContext.StockMap | frontend/src/context/CartContext.jsx:30-33 | definition: the `forEach` that fills the stock map; `CartContext.StockMapMeaning` states its meaning |
| CartContext.StockMapMeaning | frontend/src/context/CartContext.jsx:30-33 | the stock map has exactly the loaded ids; each maps to its last product's status or "in stoc", never "" |
| CartContext.StockOf | frontend/src/context/CartContext.jsx:47 | an unknown product is "in stoc"; a known one has its recorded status |
| CartContext.NewLine | frontend/src/context/CartContext.jsx:63-72 | a new line has one box, quantity 0, the custom price equal to the price, and the `||` defaults for price, unitsPerBox and image |
| CartContext.BumpBoxes | frontend/src/context/CartContext.jsx:53-59 | the lines of that product gain one box; the others are unchanged |
| CartContext.AddToCart | frontend/src/context/CartContext.jsx:46-75 | an out-of-stock product leaves the cart unchanged; a product already in the cart gains a box; otherwise a new line is appended |
| CartContext.AddKeepsDistinct | frontend/src/context/CartContext.jsx:46-75 | adding keeps one line per product |
| CartContext.CartBoxes | frontend/src/context/CartContext.jsx:131 | definition: the boxes of the cart summed; `CartContext.AddAddsOneBox` and `CartContext.SetFieldKeeps` state how the operations change it |
| CartContext.AddAddsOneBox | frontend/src/context/CartContext.jsx:46-75 | adding an available product raises the cart's box count by one |
| CartContext.SetField | frontend/src/context/CartContext.jsx:80-114 | the field of that product's lines becomes the number typed, or 0 for a blank input; all other lines and fields are unchanged |
| CartContext.SetFieldKeeps | frontend/src/context/CartContext.jsx:80-114 | editing a field keeps the ids and one line per product; only editing boxes changes the box count |
| CartContext.RemoveFromCart | frontend/src/context/CartContext.jsx:119-121 | definition: the filter by id; `CartContext.RemoveMeaning` states its meaning |
| CartContext.RemoveMeaning | frontend/src/context/CartContext.jsx:119-121 | a line remains exactly when it belongs to another product; removal distributes over concatenation, keeps distinct ids and changes nothing when the product is absent |
| CartContext.Cart.TotalBoxes | frontend/src/context/CartContext.jsx:131 | definition: `totalBoxes` of the context, `CartContext.CartBoxes` of its cart |
| CartContext.Cart.constructor | frontend/src/context/CartContext.jsx:16-18 | an empty catalogue, stock map and cart |
| CartContext.Cart.LoadProducts | frontend/src/context/CartContext.jsx:23-33 | the catalogue is the fetched list and the stock map is built from it; the cart is unchanged |
| CartContext.Cart.AddProduct | frontend/src/context/CartContext.jsx:46-75 | the cart becomes the add-to-cart result; the catalogue and stock map are unchanged |
| CartContext.Cart.UpdateField | frontend/src/context/CartContext.jsx:80-114 | the cart becomes the edited cart; the catalogue and stock map are unchanged |
| CartContext.Cart.Remove | frontend/src/context/CartContext.jsx:119-121 | the cart loses exactly that product's lines |
| CartContext.Cart.Clear | frontend/src/context/CartContext.jsx:126 | the cart becomes empty; the catalogue and stock map are unchanged |
| CartPage.ItemUnits | frontend/src/pages/CartPage.jsx:24-27 | definition: boxes times `unitsPerBox \|\| 1`; `CartPage.ItemUnitsIgnoreQuantity` states its meaning |
| CartPage.ItemTotal | frontend/src/pages/CartPage.jsx:30-32 | definition: those units times the custom price; `CartPage.PageTotalIsOrderTotal` relates it to the stored total |
| CartPage.TotalUnits | frontend/src/pages/CartPage.jsx:35 | definition: the units shown, summed over the cart; `CartPage.TotalsAppend` and `CartPage.QuantityNotShown` state its meaning |
| CartPage.TotalOrder | frontend/src/pages/CartPage.jsx:36 | definition: the total shown, summed over the cart; `CartPage.TotalsAppend` and `CartPage.PageTotalIsOrderTotal` state its meaning |
| CartPage.ItemUnitsIgnoreQuantity | frontend/src/pages/CartPage.jsx:24-27 | the units shown for a line are its boxes × unitsPerBox; the loose quantity does not count |
| CartPage.QuantityNotShown | frontend/src/pages/CartPage.jsx:35-36 | editing a quantity changes neither the units nor the total the page shows |
| CartPage.TotalsAppend | frontend/src/pages/CartPage.jsx:35-36 | the page totals of two carts together are the sums of their totals |
| CartPage.PageTotalIsOrderTotal | frontend/src/pages/CartPage.jsx:30-36 | with no loose quantities and custom prices present, the total shown equals the total the server stores |
| CartPage.QuantityMakesTotalsDiffer | frontend/src/pages/CartPage.jsx:24-32 | a line with a loose quantity shows 18 on the page and is stored as 24 |
| CartPage.AddNewLineUnits | frontend/src/pages/CartPage.jsx:24-27 | adding a new product raises the units shown by its units per box |
| AgentInfo.Payload | frontend/src/pages/AgentInfo.jsx:34-42 | the request sent carries the items and the six texts unchanged |
| AgentInfo.SentPayloadFields | frontend/src/pages/AgentInfo.jsx:24-42 | a request the form lets through passes the server's field check exactly when the cart is non-empty and the other four texts are non-empty |
| AgentInfo.ClientLetsThroughMissingFields | frontend/src/pages/AgentInfo.jsx:24-27 | the form sends a request with empty CUI, address, contact and signature, which the server rejects |
| AgentInfo.ClientStopsBlankName | frontend/src/pages/AgentInfo.jsx:24-27 | the form refuses an agent name of spaces that the server would accept |
| AgentInfo.Form.constructor | frontend/src/pages/AgentInfo.jsx:15-21 | every text is empty and nothing is drawn |
| AgentInfo.Form.SendOrder | frontend/src/pages/AgentInfo.jsx:23-69 | nothing is sent unless both names are non-blank; otherwise exactly the payload is sent; a success clears the form and the cart; a failure changes nothing |
| AddProduct.InitialForm | frontend/src/pages/AddProduct.jsx:10-19 | every field is empty except the stock, "in stoc" |
| AddProduct.HandleChange | frontend/src/pages/AddProduct.jsx:23-31 | the edited field takes the value typed, the stock lower-cased and trimmed; every other field is unchanged |
| AddProduct.ChangesCompose | frontend/src/pages/AddProduct.jsx:23-31 | a later edit of a field overrides an earlier one; edits of different fields commute |
| AddProduct.StocStable | frontend/src/pages/AddProduct.jsx:23-31 | re-entering the cleaned stock changes nothing, and the server's normalisation gives the same status |
| AddProduct.SubmitPayload | frontend/src/pages/AddProduct.jsx:39-42 | the form is sent as it is; the barcode is null exactly when it is empty |
| AddProduct.SubmittedValuesOnServer | frontend/src/pages/AddProduct.jsx:39-42 | the server stores the trimmed barcode or none; the initial stock is stored as in stock |
| ProductCard.Render | frontend/src/components/ProductCard.jsx:8-35 | no card exactly for a missing product; the out-of-stock flag is set, and the button disabled, exactly when the status reads "out of stoc"; price `?? 0`, units per box `\|\| 1`; an empty name shows "Produs fără nume" and a missing image "/placeholder.png" |
| ProductCard.ZeroDefaults | frontend/src/components/ProductCard.jsx:10-13 | a price of 0 is shown as 0, a units per box of 0 as 1 |
| ProductCard.StoredProductStock | frontend/src/components/ProductCard.jsx:16-17 | a stored product is shown out of stock exactly when its status is "out of stoc" |
| ProductsPage.ProductsData | frontend/src/pages/ProductsPage.jsx:17-24 | an array answer is the list; an object answer is its products or none; a failure gives an empty list |
| ProductsPage.PageAndCardAgree | frontend/src/pages/ProductsPage.jsx:49-51 | the page's out-of-stock test agrees with the card's on every value |
| ProductsPage.Render | frontend/src/pages/ProductsPage.jsx:47-78 | nothing for a missing product; the out-of-stock flag is set, and the button disabled, exactly when the status reads "out of stoc"; price `?? 0`, units per box `\|\| 1`; an empty name shows "Unnamed product" and a missing image "placeholder.png" |
| ProductsPage.PageMatchesCard | frontend/src/pages/ProductsPage.jsx:47-78 | the page and the card show the same price, units and button state |
| ProductsPage.CartRefusalIsShown | frontend/src/pages/ProductsPage.jsx:73-78 | in any fetched catalogue, a product whose status the cart's stock map reads as "out of stoc" (the status of the last entry with that id) is shown out of stock with its button disabled |
| AdminDashboard.MagazineOptions | frontend/src/pages/AdminDashboard.jsx:40-41 | the shop options list each shop of the fetched orders once, and only those |
| AdminDashboard.AgentOptions | frontend/src/pages/AdminDashboard.jsx:42-43 | the agent options list each agent of the fetched orders once, and only those |
| AdminDashboard.Selection | frontend/src/pages/AdminDashboard.jsx:68-104 | exactly the orders of the chosen shop or agent within the optional bounds |
| AdminDashboard.SelectionCounts | frontend/src/pages/AdminDashboard.jsx:68-75 | each chosen order is kept as often as it occurs and every other order is dropped, so the agent section's `totalOrders` is the number of the agent's orders in the window |
| AdminDashboard.SelectionAppend | frontend/src/pages/AdminDashboard.jsx:96-103 | selecting distributes over concatenation: the selection is a subsequence of the orders, in their original order |
| AdminDashboard.DashUnits | frontend/src/pages/AdminDashboard.jsx:84 | definition: `quantity \|\| 0` plus boxes times `unitsPerBox \|\| 0`; `AdminDashboard.UnitsPerName` and `AdminDashboard.ShopStatsMeaning` tally it |
| AdminDashboard.DashRevenue | frontend/src/pages/AdminDashboard.jsx:111-116 | definition: those units times `price \|\| 0`; `AdminDashboard.RevenueAndUnits` and `AdminDashboard.DetailSums` sum it |
| AdminDashboard.ShopStatsMeaning | frontend/src/pages/AdminDashboard.jsx:65-88 | the per-product table lists each product once, with the units of its lines; the values add up to all units |
| AdminDashboard.RowTotal | frontend/src/pages/AdminDashboard.jsx:226-232 | definition: the `reduce` of an order row; `AdminDashboard.RowTotalIsSumOfDetails` states its meaning |
| AdminDashboard.Detail | frontend/src/pages/AdminDashboard.jsx:254-259 | definition: one detail row, a missing name shown empty; `AdminDashboard.RowTotalIsSumOfDetails` relates the rows to the order's total |
| AdminDashboard.RowTotalIsSumOfDetails | frontend/src/pages/AdminDashboard.jsx:226-259 | an order row's total is the sum of its detail rows |
| AdminDashboard.DetailSums | frontend/src/pages/AdminDashboard.jsx:253-259 | summing the detail rows gives the dashboard revenue of the lines |
| AdminDashboard.Dashboard.constructor | frontend/src/pages/AdminDashboard.jsx:8-29 | every list and table is empty, no selection, zero agent totals |
| AdminDashboard.Dashboard.FetchOrders | frontend/src/pages/AdminDashboard.jsx:32-47 | the orders are the answer, the shop and agent options its distinct names; nothing else changes |
| AdminDashboard.Dashboard.FetchMagazineOrders | frontend/src/pages/AdminDashboard.jsx:65-88 | no shop chosen changes nothing; otherwise the shop's orders and their per-product units are shown; nothing else changes |
| AdminDashboard.Dashboard.FetchAgentOrders | frontend/src/pages/AdminDashboard.jsx:93-129 | no agent chosen changes nothing; otherwise the agent's order count, revenue and per-product units; nothing else changes |
| AdminDashboard.UnitsPerName | frontend/src/pages/AdminDashboard.jsx:80-86 | the loop builds the per-product unit tally of the selected orders |
| AdminDashboard.RevenueAndUnits | frontend/src/pages/AdminDashboard.jsx:108-122 | the loop computes the revenue of every line and the per-product unit tally |
| AdminDashboard.OrderRevenue | frontend/src/pages/AdminDashboard.jsx:110-120 | the inner loop sums the revenue of an order's lines |
| AdminStatsPage.OrdersData | frontend/src/pages/AdminStats.jsx:21-26 | an array answer is the list; an object answer its orders or none; a failure nothing |
| AdminStatsPage.CountBoxes | frontend/src/pages/AdminStats.jsx:33-42 | the loop builds the per-product box tally of all lines |
| AdminStatsPage.ProductCountMeaning | frontend/src/pages/AdminStats.jsx:33-42 | each product name appears once, with the boxes of its lines; the names are exactly those of the lines |
| AdminStatsPage.EmptyOrderCountsNothing | frontend/src/pages/AdminStats.jsx:33-42 | an order without lines leaves the tally unchanged |
| AdminStatsPage.SortedProducts | frontend/src/pages/AdminStats.jsx:44-45 | the entries are a permutation of the tally, by boxes descending |
| AdminStatsPage.SortedProductsStable | frontend/src/pages/AdminStats.jsx:44-45 | the sort is stable: entries with the same box count keep their tally order |
| AdminStatsPage.MostSold | frontend/src/pages/AdminStats.jsx:48 | definition: `slice(0, 5)`; `AdminStatsPage.MostSoldMeaning` states its meaning |
| AdminStatsPage.LeastSold | frontend/src/pages/AdminStats.jsx:49 | definition: `slice(-5).reverse()`; `AdminStatsPage.LeastSoldMeaning` states its meaning |
| AdminStatsPage.MostSoldMeaning | frontend/src/pages/AdminStats.jsx:47-48 | the top list is the first five sorted entries, none sold less than any entry left out |
| AdminStatsPage.LeastSoldMeaning | frontend/src/pages/AdminStats.jsx:49-50 | the bottom list is the last five sorted entries, ascending, and no entry left out sold fewer boxes than one listed; with five or fewer products both lists hold them all |
| AdminStatsPage.TotalBoxesSold | frontend/src/pages/AdminStats.jsx:69-79 | definition: the nested `reduce` of `boxes \|\| 0`; `AdminStatsPage.TotalsMeaning` states its meaning |
| AdminStatsPage.PageRevenue | frontend/src/pages/AdminStats.jsx:81-92 | definition: the nested `reduce` of boxes times `price \|\| 0`; `AdminStatsPage.TotalsMeaning` and `AdminStatsPage.RevenueCountsBoxes` state its meaning |
| AdminStatsPage.TotalsMeaning | frontend/src/pages/AdminStats.jsx:67-92 | the boxes sold equal the tally total and the sum of every line's boxes; the revenue is the sum of boxes × price |
| AdminStatsPage.RevenueCountsBoxes | frontend/src/pages/AdminStats.jsx:81-92 | one box of six units plus three loose units at price 2 yields revenue 2 on the page against 18 at the statistics route |
| AdminStatsPage.StatsPage.constructor | frontend/src/pages/AdminStats.jsx:6-14 | no orders and empty top and bottom lists |
| AdminStatsPage.StatsPage.Load | frontend/src/pages/AdminStats.jsx:17-57 | a failed fetch changes nothing; otherwise the orders are the answer and the two lists come from its box tally |
| MagazineOrders.ToJson | backend/routes/admin.js:58-60 | an order reaches the page without the `products` field the page reads |
| MagazineOrders.LineKey | frontend/src/pages/MagazineOrders.jsx:48 | definition: `productName \|\| productId?.name` as an object key; `MagazineOrders.AggregationMeaning` states the tally keyed by it |
| MagazineOrders.Aggregation | frontend/src/pages/MagazineOrders.jsx:45-53 | fails exactly when some order lacks `products`; otherwise the tally of quantities per product name |
| MagazineOrders.Aggregate | frontend/src/pages/MagazineOrders.jsx:45-53 | the loop computes the aggregation above |
| MagazineOrders.StoredOrdersNeverAggregate | frontend/src/pages/MagazineOrders.jsx:45-53 | any non-empty answer of the server fails the aggregation; an empty one gives an empty table |
| MagazineOrders.AggregationMeaning | frontend/src/pages/MagazineOrders.jsx:45-53 | each product name appears once, with the summed quantities of its lines |
| MagazineOrders.ShopOptions | frontend/src/pages/MagazineOrders.jsx:18 | the shop options list each shop of the answer once, and only those |
| MagazineOrders.RequestNeverRejected | frontend/src/pages/MagazineOrders.jsx:29 | the page only asks with a chosen shop, which the server never rejects |
| MagazineOrders.Page.constructor | frontend/src/pages/MagazineOrders.jsx:6-11 | no options, no selection, no orders, empty table |
| MagazineOrders.Page.FetchMagazines | frontend/src/pages/MagazineOrders.jsx:15-23 | the options are the answer's distinct shop names; a failure changes nothing |
| MagazineOrders.Page.FetchOrders | frontend/src/pages/MagazineOrders.jsx:28-57 | no shop or a failed request changes nothing; otherwise the orders are set and the table is the aggregation, kept as it was when the aggregation fails |
| MagazineOrders.BackendAnswerKeepsTable | frontend/src/pages/MagazineOrders.jsx:28-57 | whatever the server answers with orders, the product table keeps its previous value |

## Left out

- GET /products, the product timestamps and `server.js` (the Express and MongoDB setup) are not modelled: they only list or wire things.
- `axiosClient.js`, `AuthContext.jsx`, `App.js`, `Login.jsx`, `Header.jsx` and `testUser.js` are not modelled. They are HTTP setup, routing and a seed script.
- Rendering is left out: markup, summary visibility, the loading flags, confirmations and navigation. The cart page's "next" step passes the cart to the agent form as `items`.
- Concurrency is left out. Two simultaneous creates can read the same last order number; the unique index then rejects one of them with a 500.
- A real MongoDB `$regex` is not modelled: search is a case-insensitive literal substring match.
- Letter case is ASCII only.
- Time zones and date parsing are left out: dates are millisecond timestamps of local midnights.
- JavaScript `null` is not told apart from a missing field. Fields of the wrong JSON type are not modelled, except a non-string `stoc`.
- Numbers are unbounded integers: floating point, `NaN`, `Number(...)` casts of form strings and `toFixed` are not modelled.
- A malformed id, which Mongoose answers with a 500 cast error, is treated as an unknown id.
- Failures of the database itself (the 500 responses of every route's `catch`) are not modelled.
- JavaScript lists integer-like object keys first in `Object.entries`. The counters here keep plain insertion order.
- `bcrypt` is the parameter `matches`; hashing on user creation is not modelled.
- AdminStatsRoute.ComputeStats: requires every line to have a quantity and a price. The route uses them without a fallback and yields `NaN` otherwise.
- AdminRoute.ListOrders: repeats the query of GET /orders and carries no contract of its own. `OrdersRoute.ListOrders` states it.
- AuthRoute.CurrentUser: GET /me always answers `user: null` and has no contract.
- CartPage.ItemTotal: a missing custom price counts as 0, where the page would compute `NaN`.
- CartContext.Cart.LoadProducts: a catalogue answer that is not an array (which makes `forEach` throw) is not modelled.
- MagazineOrders.LineQuantity: every line is given an integer quantity. A missing one, which makes the page add `NaN`, is not represented.
- AddProduct.SubmitPayload: the backend receives the form's price and units per box as text. The model does not follow the text-to-number cast that Mongoose applies.

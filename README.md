# kelilink core, modelled in Dafny

kelilink is a street-food ordering app. Buyers browse the available
products and place an order per product. Sellers accept
or reject incoming orders, deliver them, and switch their stall open or
closed. A request middleware keeps each role inside its own area. This
project models the core of that system and proves what it promises:

- **Data layer.** The order status enum and the `orders` and `order_items`
  tables: column defaults and `ON DELETE CASCADE` foreign keys. The store
  is four row lists (`Schema`). Cascading deletes are proved to keep every
  foreign key intact.
- **tRPC queries and updates.**
  - `orders.getBuyerOrders`, `products.getAvailable` and
    `users.getActiveSellers` are built from one generic filter / inner join /
    descending-sort library (`Relational`).
  - `users.getProfile` is modelled on the same rows.
  - The three `users` updates are modelled twice: as pure functions over the
    rows (`UsersRouter.UpdateWhereId`) and as methods on a `UserTable` class
    whose `rows` field they reassign.
- **Client pages and components.**
  - Buyer orders page: tabs, pending total, checkout bar, buttons, status
    colours, and the rendering of each order's item list.
  - Floating order button.
  - Buyer dashboard: the Order Now button and its in-flight set, kept in a
    `Dashboard` class.
  - Seller order card: the `handleStatusUpdate` call with its loading flag,
    the buttons it disables and the navigation to the delivery page, kept in
    an `OrderCard` class.
  - Seller dashboard: tab state, open/closed toggle (including a failed
    save) and per-status controls.
  - Weather widget icon table.
- **Middleware.** Its redirect decision, with a proof that no redirect loops.
- **Order lifecycle** (`OrderLifecycle`). The status transitions that the
  seller order card, the seller dashboard and the buyer orders page's Cancel
  button offer, put together into one relation. Every such step moves an
  order forward, and none of these controls marks an order completed. The
  seller delivery page and the tracking page, which do complete orders, are
  not part of this model.

Each file holds one module:

| file | module |
|---|---|
| wrappers.dfy | `Wrappers` |
| relational.dfy | `Relational` |
| schema.dfy | `Schema` |
| order_actions.dfy | `OrderActions` |
| orders_router.dfy | `OrdersRouter` |
| products_router.dfy | `ProductsRouter` |
| users_router.dfy | `UsersRouter` |
| buyer_orders_page.dfy | `BuyerOrdersPage` |
| floating_order_button.dfy | `FloatingOrderButton` |
| buyer_dashboard.dfy | `BuyerDashboard` |
| seller_order_card.dfy | `SellerOrderCard` |
| seller_dashboard.dfy | `SellerDashboard` |
| middleware.dfy | `Middleware` |
| weather_widget.dfy | `WeatherWidget` |
| order_lifecycle.dfy | `OrderLifecycle` |

Modelling conventions:

- **Row lists.** A SQL table is a `seq` of rows.
  - A query's result is a function of the rows.
  - Primary keys are stated as `Relational.UniqueKeys`. The lemmas that need
    them take it as a precondition.
- **Timestamps** are integers. A `uuid` is an opaque string.
- **`integer` columns** have the PostgreSQL `int4` range (`Schema.Int4`).
- **Ordering.** SQL leaves the order of rows with equal `created_at`
  unspecified. `Relational.SortDesc` is a stable insertion sort, and the
  contracts rely only on "sorted descending and a permutation".
- **`OrderActions.RequestedStatus`** is the status each order mutation
  asks for: accept → confirmed, reject → cancelled, start delivery →
  delivering, complete → completed, cancel → cancelled. This follows
  `handleStatusUpdate` in src/components/seller/order-card.tsx. The server
  side of those mutations is not part of this model.
- **The users table.** src/lib/db/schema/users.ts declares only `id`,
  `name`, `email`, `avatarUrl`, `role` and `createdAt`. The users router
  reads and writes more: `isActive`, `isOnboarded`, `businessName`,
  `businessDescription`, `phoneNumber`, `currentLatitude`,
  `currentLongitude` and `updatedAt`. `Schema.User` carries all of them,
  following the router code.

## Model

| member | source | states |
|---|---|---|
| Schema.ParseStatus | src/lib/db/schema/orders.ts:5-11 | Parsing a status text yields the enum value whose stored name is that text, and fails only on text that names no status |
| Schema.StatusNameRoundTrip | src/lib/db/schema/orders.ts:5-11 | Each of the five statuses is read back from its stored name |
| Schema.InsertOrder | src/lib/db/schema/orders.ts:13-24 | A new order gets a random id, the insertion time and status `pending` unless a status is given; buyer, vendor and total are kept |
| Schema.DeleteOrder | src/lib/db/schema/orders.ts:26-30 | Deleting an order removes exactly that order and exactly its items (cascade on `order_id`), leaving users and products alone |
| Schema.DeleteProduct | src/lib/db/schema/orders.ts:31-33 | Deleting a product removes exactly that product and the items that reference it, leaving users and orders alone |
| Schema.DeleteUser | src/lib/db/schema/orders.ts:15-20 | Deleting a user removes the user, the products they sell (the `vendor_id` cascade of src/lib/db/schema/products.ts:6-8) and every order where they are buyer or vendor |
| Schema.DeleteUserItems | src/lib/db/schema/orders.ts:26-33 | After deleting a user an item survives exactly when its order and its product both survive |
| Schema.DeleteOrderConsistent | src/lib/db/schema/orders.ts:26-30 | Deleting an order keeps primary keys unique and every foreign key pointing at an existing row |
| Schema.DeleteProductConsistent | src/lib/db/schema/orders.ts:31-33 | Deleting a product keeps the store consistent |
| Schema.DeleteUserConsistent | src/lib/db/schema/orders.ts:13-36 | Deleting a user, with its two levels of cascades, keeps the store consistent |
| Schema.OrderIdDeterminesRow | src/lib/db/schema/orders.ts:14 | With `id` as primary key, an order id names one row |
| Schema.ProductIdDeterminesRow | src/lib/db/schema/products.ts:5 | With `id` as primary key, a product id names one row |
| Relational.Filter | src/lib/server/routers/orders.ts:25 | A WHERE clause keeps exactly the rows satisfying the predicate, never more rows than it had |
| Relational.FilterAppend | src/lib/server/routers/users.ts:74 | Filtering preserves order: filtering a concatenation concatenates the filtered parts |
| Relational.FilterPartition | src/app/buyer/orders/page.tsx:33-38 | A predicate and its negation split a list: lengths add up and the multisets add up to the original |
| Relational.InnerJoin | src/lib/server/routers/orders.ts:24 | An inner join yields exactly the projections of matching left/right pairs |
| Relational.FilterMap | src/app/buyer/orders/page.tsx:33-38 | Filtering mapped rows by a predicate equals mapping the rows filtered by the same predicate read through the map |
| Relational.JoinCountKey | src/lib/server/routers/orders.ts:24 | Joining on a unique right key never duplicates a left row |
| Relational.SortDesc | src/lib/server/routers/orders.ts:26 | ORDER BY DESC yields a list sorted by the key, descending, that is a permutation of its input |
| Relational.KeyedRowsEqual | src/lib/db/schema/orders.ts:14 | Two rows with the same unique key are the same row |
| OrdersRouter.GetBuyerOrders | src/lib/server/routers/orders.ts:8-29 | The result is sorted newest first and holds exactly the caller's orders that have an existing vendor, each with that vendor's name and avatar |
| OrdersRouter.OnlyCallersOrders | src/lib/server/routers/orders.ts:25 | Every returned row comes from an order whose buyer is the caller, with the same id and status |
| OrdersRouter.EachOrderOnce | src/lib/server/routers/orders.ts:24-25 | Under unique keys each of the caller's orders with a vendor appears exactly once, and every other order not at all |
| OrdersRouter.AsReceived | src/lib/server/routers/orders.ts:12-21 | The rows as the client receives them carry exactly the selected columns, in order, and none of them has an `items` property |
| OrdersRouter.ItemsOf | src/lib/db/schema/orders.ts:26-36 | An order's item lines are exactly its items each joined with the name of the product it references |
| OrdersRouter.GetBuyerOrdersWithItems | src/lib/server/routers/orders.ts:8-29 | Corrected query: the same rows in the same order as getBuyerOrders, each carrying its order's item lines |
| ProductsRouter.GetAvailable | src/lib/server/routers/products.ts:8-25 | The result holds exactly the available products whose vendor exists, joined with the vendor's name and avatar |
| ProductsRouter.AvailableRowsLackVendorId | src/lib/server/routers/products.ts:10-19 | The selected columns do not include `vendorId`, so no returned row carries one |
| ProductsRouter.ListedProductHasVendor | src/lib/server/routers/products.ts:21-22 | Every listed product is available and has a vendor row with the shown name and avatar |
| ProductsRouter.GetAvailableWithVendorId | src/lib/server/routers/products.ts:10-19 | Corrected query: as getAvailable, with the product's vendor id selected |
| ProductsRouter.CorrectedRowsCarryVendorId | src/lib/server/routers/products.ts:10-19 | Every row of the corrected query carries the vendor id of the product it lists |
| ProductsRouter.EachAvailableProductOnce | src/lib/server/routers/products.ts:21-22 | Under unique keys an available product with a vendor is listed once, any other product never |
| UsersRouter.GetProfile | src/lib/server/routers/users.ts:11-15 | The profile is a row of the caller, and is absent exactly when the caller has no row |
| UsersRouter.ProfileIsCallersRow | src/lib/server/routers/users.ts:13-14 | With unique ids the profile is the caller's one row |
| UsersRouter.UpdateWhereId | src/lib/server/routers/users.ts:21 | An update WHERE id = caller keeps the number of rows and every id, patches the caller's row and leaves every other row as it was |
| UsersRouter.DisplayName | src/lib/server/routers/users.ts:77 | A seller is shown by business name when it is non-empty, else by name |
| UsersRouter.ToActiveSeller | src/lib/server/routers/users.ts:75-81 | A map entry keeps the user's id and avatar, is named by the business name when it is non-empty and by the user's name otherwise, and for an active seller carries the stored non-empty coordinates |
| UsersRouter.GetActiveSellers | src/lib/server/routers/users.ts:62-82 | The map lists exactly the active sellers with both coordinates set, each once per row, no more entries than users |
| UsersRouter.ActiveSellersInStoreOrder | src/lib/server/routers/users.ts:69-81 | The two filters compose to one, and the result is in the rows' own order |
| UsersRouter.ActiveSellersAppend | src/lib/server/routers/users.ts:73-81 | The seller list of two row lists is the concatenation of their seller lists |
| UsersRouter.LocationMakesActiveSeller | src/lib/server/routers/users.ts:43-60 | After updateLocation the caller is an active seller with coordinates and appears on the sellers map |
| UsersRouter.ClosingRemovesFromMap | src/lib/server/routers/users.ts:17-23 | After updateVendorStatus(false) the map holds exactly the entries of other users it held before |
| UsersRouter.UserTable.UpdateVendorStatus | src/lib/server/routers/users.ts:17-23 | Sets `isActive` of the caller's row to the input, changes nothing else, reports success |
| UsersRouter.UserTable.UpdateBusinessProfile | src/lib/server/routers/users.ts:25-41 | Writes the three business fields, marks the caller onboarded and promotes them to seller |
| UsersRouter.UserTable.UpdateLocation | src/lib/server/routers/users.ts:43-60 | Writes both coordinates, `isActive`, seller role and `updatedAt`; the caller is then an active seller |
| BuyerOrdersPage.FilteredOrders | src/app/buyer/orders/page.tsx:33-38 | The active tab shows exactly the pending, confirmed and delivering orders, the history tab the completed and cancelled ones, nothing before data arrives |
| BuyerOrdersPage.TabsKeepOrder | src/app/buyer/orders/page.tsx:33-38 | Each tab keeps the newest-first order of the query |
| BuyerOrdersPage.TabsPartition | src/app/buyer/orders/page.tsx:33-38 | Every order appears on exactly one of the two tabs |
| BuyerOrdersPage.PendingOrders | src/app/buyer/orders/page.tsx:40 | The pending list holds exactly the pending orders, and is empty before data arrives |
| BuyerOrdersPage.ReduceIsSum | src/app/buyer/orders/page.tsx:41 | The left fold with a starting sum equals that sum plus the totals of the list |
| BuyerOrdersPage.TotalPendingIsSum | src/app/buyer/orders/page.tsx:40-41 | The pending total is the sum of the pending orders' totals, and 0 when none is pending |
| BuyerOrdersPage.SumTotalsAppend | src/app/buyer/orders/page.tsx:41 | The total of two lists is the sum of their totals |
| BuyerOrdersPage.PendingWithinActive | src/app/buyer/orders/page.tsx:33-40 | The pending count never exceeds the length of the active tab |
| BuyerOrdersPage.TotalPendingPrice | src/app/buyer/orders/page.tsx:40-41 | The reduce over the pending orders equals the sum of their totals |
| BuyerOrdersPage.BuyerActions | src/app/buyer/orders/page.tsx:176-204 | At most two buttons, none repeated; Pay Now never without Cancel; Track always alone |
| BuyerOrdersPage.BuyerActionGating | src/app/buyer/orders/page.tsx:176-204 | Pay Now shows exactly for pending orders, Cancel for pending or confirmed, Track for delivering, and history orders show no button |
| BuyerOrdersPage.CancelClick | src/app/buyer/orders/page.tsx:186-190 | Cancel sends cancelOrder for that order exactly when the buyer confirms the dialog |
| BuyerOrdersPage.CheckoutBarShown | src/app/buyer/orders/page.tsx:234-250 | The checkout bar shows exactly on the active tab with some pending order, with the pending count and the pending total |
| BuyerOrdersPage.CheckoutBarFor | src/app/buyer/orders/page.tsx:234-250 | A bar is shown only on the active tab, with at least one order, counting exactly the pending orders; never on the history tab |
| BuyerOrdersPage.GetStatusColor | src/app/buyer/orders/page.tsx:43-58 | Text that names no status gets the muted colour |
| BuyerOrdersPage.StatusColorMatchesCard | src/app/buyer/orders/page.tsx:43-58 | The page colours every status as the seller card does, and is muted exactly for unknown text |
| BuyerOrdersPage.RenderPage | src/app/buyer/orders/page.tsx:111-165 | Rendering throws exactly when data has arrived and some order shown on the tab has no `items` |
| BuyerOrdersPage.AsWrittenPageCrashes | src/app/buyer/orders/page.tsx:158 | Fed by getBuyerOrders as written, the page throws whenever the tab has an order to show |
| BuyerOrdersPage.CorrectedPageRenders | src/app/buyer/orders/page.tsx:111-250 | Fed by the corrected query, the page renders one card per order on the tab, in order, with that status's buttons and the order's item lines, and the checkout bar of the rows |
| FloatingOrderButton.ActiveCount | src/components/buyer/floating-order-button.tsx:10-12 | The count is 0 before data arrives, at most the number of orders, and 0 exactly when no order is pending, confirmed or delivering |
| FloatingOrderButton.Visible | src/components/buyer/floating-order-button.tsx:14 | The button is shown only once data has arrived with at least one order |
| FloatingOrderButton.VisibleIffActiveOrder | src/components/buyer/floating-order-button.tsx:14 | The button shows exactly when some order is in progress |
| FloatingOrderButton.CountMatchesActiveTab | src/components/buyer/floating-order-button.tsx:10-12 | The badge count equals the length of the orders page's active tab |
| BuyerDashboard.BuyRequest | src/app/buyer/dashboard/page.tsx:28-34 | The request names the product's vendorId and one line of quantity 1 for that product |
| BuyerDashboard.AsWrittenRequestHasNoVendor | src/app/buyer/dashboard/page.tsx:24-34 | For any product the page lists, the request it sends has no vendor id |
| BuyerDashboard.CorrectedRequestCarriesVendor | src/app/buyer/dashboard/page.tsx:28-29 | Fed by the corrected query, the request names the vendor selling the product |
| BuyerDashboard.OrderButtonFor | src/app/buyer/dashboard/page.tsx:135-138 | The button is disabled and reads "Adding..." exactly while the product's order is in flight, else reads "Order Now" |
| BuyerDashboard.Dashboard.constructor | src/app/buyer/dashboard/page.tsx:22 | The page starts with no order in flight, nothing sent, no mutate call made and no alert shown |
| BuyerDashboard.Dashboard.HandleBuy | src/app/buyer/dashboard/page.tsx:24-34 | handleBuy adds the product to the in-flight set, sends its one request and becomes the latest mutate call |
| BuyerDashboard.Dashboard.Settle | src/app/buyer/dashboard/page.tsx:12-41 | A settled request shows the hook's alert exactly when it failed, and its per-call onSettled removes the product from the set only when it was the latest mutate call |
| BuyerDashboard.BuyAndSettle | src/app/buyer/dashboard/page.tsx:24-42 | A purchase with no other in between, once settled, leaves the in-flight set as before, has sent exactly one request and alerted only on failure |
| BuyerDashboard.Dashboard.SettleEach | src/app/buyer/dashboard/page.tsx:34-41 | Corrected settle: every settled request removes its product from the set, with the same alert |
| BuyerDashboard.OverlappedBuyStaysStuck | src/app/buyer/dashboard/page.tsx:24-42 | Ordering a, then b before a settles: once both settle, a stays in the set and its button stays disabled on "Adding..." |
| BuyerDashboard.OverlappedBuyClears | src/app/buyer/dashboard/page.tsx:24-42 | With the corrected settle the same two purchases leave the set as before and a's button reads "Order Now" again |
| SellerOrderCard.MutationFor | src/components/seller/order-card.tsx:27-38 | handleStatusUpdate sends, for the order, the mutation requesting exactly the given status, never the buyer's cancel |
| SellerOrderCard.MutationForInjective | src/components/seller/order-card.tsx:27-38 | Different target statuses send different mutations |
| SellerOrderCard.OrderCard.constructor | src/components/seller/order-card.tsx:25 | A card starts not loading, having sent nothing, shown no alert and navigated nowhere |
| SellerOrderCard.OrderCard.HandleStatusUpdate | src/components/seller/order-card.tsx:15-45 | One call sends that mutation, raises an alert only on failure, opens the delivery page only after a successful start delivery, and always clears the loading flag |
| SellerOrderCard.OrderCard.BeginUpdate | src/components/seller/order-card.tsx:27-38 | The update sets the loading flag and sends exactly the mutation for the status, nothing else changes |
| SellerOrderCard.OrderCard.FinishUpdate | src/components/seller/order-card.tsx:15-23 | When the request settles the loading flag is cleared, a failure adds one alert and a successful start delivery pushes the delivery path |
| SellerOrderCard.OrderCard.Click | src/components/seller/order-card.tsx:111-150 | A click while loading changes nothing (`disabled={isLoading}`); otherwise a status button runs handleStatusUpdate for its target and Continue Delivery pushes the delivery path |
| SellerOrderCard.ClickDuringUpdate | src/components/seller/order-card.tsx:116-144 | A click during an awaited update sends nothing more: one update sends exactly one mutation |
| SellerOrderCard.CardButtons | src/components/seller/order-card.tsx:111-150 | At most two buttons, none repeated; none exactly for completed and cancelled orders; Continue Delivery exactly for delivering ones |
| SellerOrderCard.PendingCard | src/components/seller/order-card.tsx:112-129 | A pending order shows Reject and Confirm, targeting cancelled and confirmed |
| SellerOrderCard.ConfirmedCard | src/components/seller/order-card.tsx:131-139 | A confirmed order shows only Start Delivery |
| SellerOrderCard.DeliveringCard | src/components/seller/order-card.tsx:141-149 | A delivering order shows only Continue Delivery, which changes no status |
| SellerOrderCard.TerminalCards | src/components/seller/order-card.tsx:111-150 | Completed and cancelled orders show no button |
| SellerOrderCard.NoButtonCompletes | src/components/seller/order-card.tsx:111-150 | No card button completes an order, although handleStatusUpdate could |
| SellerOrderCard.CardMutationsMatchTargets | src/components/seller/order-card.tsx:111-150 | The card sends exactly the vendor mutations for the order whose status its buttons target |
| SellerOrderCard.SubtotalUsesSnapshotPrice | src/components/seller/order-card.tsx:104 | A line's amount is the price stored on the item at order time times its quantity, whatever the product's current price |
| SellerOrderCard.Capitalize | src/components/seller/order-card.tsx:83 | Capitalising keeps the length, upper-cases the first letter and keeps the rest |
| SellerOrderCard.StatusLabel | src/components/seller/order-card.tsx:83 | The label has the stored name's length, an upper-case first letter and the name's remaining letters |
| SellerOrderCard.StatusLabels | src/components/seller/order-card.tsx:83 | The five badge labels are Pending, Confirmed, Delivering, Completed, Cancelled |
| SellerOrderCard.StatusLabelRoundTrip | src/components/seller/order-card.tsx:83 | Lower-casing a label's first letter gives back the stored status |
| SellerOrderCard.StatusColorsCoverStatuses | src/components/seller/order-card.tsx:55-61 | Every status has its own colour in the table, none muted |
| SellerDashboard.ParseTab | src/app/seller/dashboard/page.tsx:87 | Parsing tab text yields the tab of that name, and fails only on text naming no tab |
| SellerDashboard.Dashboard.constructor | src/app/seller/dashboard/page.tsx:11-12 | The page starts on the incoming tab with the stall closed |
| SellerDashboard.Dashboard.OrdersQueryStatus | src/app/seller/dashboard/page.tsx:18 | The orders query asks for the status named by the active tab, which parses back to it |
| SellerDashboard.Dashboard.SelectTab | src/app/seller/dashboard/page.tsx:90 | Selecting a tab changes only the active tab |
| SellerDashboard.Dashboard.ToggleStatus | src/app/seller/dashboard/page.tsx:36-40 | The toggle flips the open flag and sends the new value |
| SellerDashboard.ToggleAndPersist | src/app/seller/dashboard/page.tsx:21-23 | The flag flips first; on success the seller's row holds the new flag and no other row changes; on failure the rows are unchanged, so the button and the row disagree |
| SellerDashboard.Badge | src/app/seller/dashboard/page.tsx:120 | The badge is yellow exactly for pending, purple exactly for delivering, gray exactly for confirmed, completed and cancelled |
| SellerDashboard.BuyerInitial | src/app/seller/dashboard/page.tsx:116 | The avatar shows one character: the buyer name's first, or "B" without a non-empty name |
| SellerDashboard.Controls | src/app/seller/dashboard/page.tsx:139-188 | At most two controls, none repeated; none exactly for cancelled orders; the completed label exactly for completed ones |
| SellerDashboard.ControlLink | src/app/seller/dashboard/page.tsx:176-178 | Only the Continue link navigates, to the same delivery path the order card opens |
| SellerDashboard.LinkOnlyWhileDelivering | src/app/seller/dashboard/page.tsx:170-181 | A delivering order, and only one, shows a link, and it opens the order card's delivery path |
| SellerDashboard.PendingControls | src/app/seller/dashboard/page.tsx:140-157 | A pending order offers Tolak (reject) and Terima (accept) |
| SellerDashboard.ConfirmedControls | src/app/seller/dashboard/page.tsx:159-168 | A confirmed order offers only start delivery |
| SellerDashboard.LaterControls | src/app/seller/dashboard/page.tsx:170-188 | Delivering, completed and cancelled orders send no mutation |
| SellerDashboard.DashboardAgreesWithCard | src/app/seller/dashboard/page.tsx:139-188 | For every status the dashboard sends the same mutations as the order card |
| Middleware.EffectiveRole | src/middleware.ts:51 | The role is the metadata role when non-empty, else "buyer" |
| Middleware.Decide | src/middleware.ts:37-76 | A visitor without session is only passed or sent to /; every redirect is to an absolute path; paths outside /buyer, /seller and / always pass |
| Middleware.AnonymousAccess | src/middleware.ts:37-47 | A visitor without session is sent to / exactly from /buyer and /seller paths and passes everywhere else |
| Middleware.MissingRoleIsBuyer | src/middleware.ts:51 | A missing or empty role is treated as buyer |
| Middleware.RoleSeparation | src/middleware.ts:55-66 | A seller on /buyer goes to /seller/dashboard; a buyer on /seller goes to /buyer/dashboard |
| Middleware.SignedInRootGoesToDashboard | src/middleware.ts:69-73 | A signed-in user at / goes to /ROLE/dashboard |
| Middleware.SignedInElsewherePasses | src/middleware.ts:50-76 | A signed-in user passes everywhere else |
| Middleware.NoRedirectLoop | src/middleware.ts:36-76 | Every redirect target is let through for the same session |
| WeatherWidget.IconMatchesBand | src/components/weather/weather-widget.tsx:38-46 | The widget shows a specific icon exactly for the codes of its band, and the fallback for codes in no band |
| WeatherWidget.GetWeatherIcon | src/components/weather/weather-widget.tsx:38-46 | Any specific icon returned lies in the band of codes it stands for |
| WeatherWidget.BandsDisjoint | src/components/weather/weather-widget.tsx:38-46 | No code belongs to two bands |
| WeatherWidget.UnlistedCodesFallBack | src/components/weather/weather-widget.tsx:45 | Snow codes, gaps between bands and negative codes get the fallback icon |
| WeatherWidget.GlyphsDistinct | src/components/weather/weather-widget.tsx:39-45 | The seven glyphs are pairwise different |
| OrderLifecycle.CardOffersVendorSteps | src/components/seller/order-card.tsx:111-150 | The card offers exactly pending → confirmed or cancelled and confirmed → delivering |
| OrderLifecycle.DashboardOffersVendorSteps | src/app/seller/dashboard/page.tsx:139-168 | The dashboard sends exactly the mutations of those vendor steps |
| OrderLifecycle.BuyerCancelOffered | src/app/buyer/orders/page.tsx:184-196 | The buyer may cancel exactly pending and confirmed orders |
| OrderLifecycle.StepsMoveForward | src/components/seller/order-card.tsx:27-38 | Every offered step raises the order's rank, leaves no terminal status and never reaches completed |

## Left out

- The server side of the order mutations is not part of this model: acceptOrder, rejectOrder, startDelivery, completeOrder, cancelOrder, checkoutAllPending, create and getVendorOrders. Their effect is taken as `OrderActions.RequestedStatus`.
- The tRPC transport, the Supabase auth session, cookies and the database driver are left out. Each query is a function of the rows and the caller id.
- `users.getUsers` is left out. It returns every row unchanged, so there is nothing to state.
- The middleware's route matcher (a regular expression over paths) is left out. `Middleware.Decide` models the function body for every path it runs on.
- Middleware.EffectiveRole: the metadata role is modelled as optional text. Non-string metadata values are not modelled.
- UsersRouter.LocationPatch: `String(number)` of a JavaScript double is modelled as opaque non-empty coordinate text. The number formatting and the `Number(...)` parsing back in getActiveSellers are left out, so the map's coordinates stay text.
- The `Intl.NumberFormat` and `toLocaleDateString` formatting of prices and dates is left out.
- Loading skeletons, empty-state messages, images and styling are left out. Of the styling, only the status colour tables are modelled. Of the links, only the seller dashboard's Continue link (`SellerDashboard.ControlLink`) is modelled.
- The weather fetch and its error handling, and the temperature text, are left out. `WeatherWidget.GetWeatherIcon` takes the code as an integer, not as a JavaScript number.
- The seller dashboard's and the order card's item lists are left out. They read `order.items` from getVendorOrders, whose server side is not part of this model. On the buyer page the item list is modelled (`BuyerOrdersPage.RenderPage`), and only the card's line subtotal is modelled on the seller side.
- BuyerOrdersPage.BuyerActionGating: states the buttons of a card as the page would render them from rows that carry items. Fed by getBuyerOrders as written, no card renders at all (see Findings).
- BuyerOrdersPage.CheckoutBarShown: states the checkout bar as the page would render it from rows that carry items. Fed by getBuyerOrders as written, the render throws before the bar is reached whenever the active tab shows an order (see Findings).
- BuyerOrdersPage.RenderPage: a render that throws is modelled as one `Crashed` page. The error boundary and what Next.js shows instead are not modelled.
- SQL leaves the order of equal `created_at` rows unspecified. Relational.SortDesc fixes one (stable) order, and no contract depends on it.
- getAvailable has no ORDER BY. The model returns rows in table order, and no contract depends on that order.
- Sums and prices are unbounded integers. JavaScript double rounding of very large totals is not modelled.
- The order card's `disabled={isLoading}` guard is modelled by `SellerOrderCard.OrderCard.Click`, and the buyer dashboard's in-flight set by `BuyerDashboard.Dashboard`. The `isPending` guards of the buyer page's Cancel and Checkout All buttons and of the seller dashboard's Tolak, Terima and start delivery buttons are left out, because those mutations' server side is not part of this model.
- The seller dashboard's startDelivery `onSuccess` navigation to the delivery page (src/app/seller/dashboard/page.tsx:28-33) is not modelled as page state. The same navigation is modelled on the order card (`SellerOrderCard.OrderCard.FinishUpdate`). The dashboard's Continue link to that page is modelled by `SellerDashboard.ControlLink`.
- Query cache invalidation (`utils.*.invalidate()`) after a mutation is left out. Each query is a function of the current rows.
- The onboarding page's call to updateBusinessProfile and other pages outside this core are left out.
- The buyer orders page's Checkout All button (`checkoutAllPending`, src/app/buyer/orders/page.tsx:23, 242) is not in `OrderLifecycle`'s relation, because the server side of that mutation is not part of this model. The same holds for the seller delivery page's Mark Delivered (`completeOrder`) and the tracking page's `confirmDelivery`, whose pages lie outside this core.
- SellerOrderCard.Capitalize: upper-cases ASCII `a`–`z` only, on a string of code points. JavaScript's `toUpperCase` also maps other letters and may change the length (ß → SS). This is exact for the five lower-case ASCII status names it is applied to.
- SellerDashboard.BuyerInitial: takes the first code point of the buyer's name. JavaScript's `name?.[0]` takes the first UTF-16 code unit, which differs for names starting with a character outside the Basic Multilingual Plane.

## Findings

| source | as written | input that shows it | evidently intended | confidence | as-written member | corrected member |
|---|---|---|---|---|---|---|
| src/app/buyer/dashboard/page.tsx:29 with src/lib/server/routers/products.ts:10-19 | handleBuy sends `vendorId: product.vendorId`, but getAvailable selects id, name, price, imageUrl and vendor only, so every order request carries `vendorId` undefined | any available product with an existing vendor, e.g. product p1 sold by user v1: the request is `{vendorId: undefined, items: [{productId: p1, quantity: 1}]}` | getAvailable also selects `productsTable.vendorId`, so the request names v1 | high, not executed | BuyerDashboard.AsWrittenRequestHasNoVendor | BuyerDashboard.CorrectedRequestCarriesVendor |
| src/app/buyer/orders/page.tsx:158 with src/lib/server/routers/orders.ts:12-21 | every order card calls `order.items.map`, but getBuyerOrders selects id, status, totalPrice, createdAt and vendor only, so `order.items` is undefined and the render throws a TypeError | one pending order of the caller, with an existing vendor, on the active tab | getBuyerOrders also returns each order's items joined with the product name, so each card lists its lines | high, not executed | BuyerOrdersPage.AsWrittenPageCrashes | BuyerOrdersPage.CorrectedPageRenders |
| src/app/buyer/dashboard/page.tsx:34-41 | the `onSettled` that clears a product from `orderingIds` is passed to `createOrder.mutate` per call, and the mutation hook runs per-call callbacks only for its latest `mutate` call, so an earlier request still in flight never clears its product | Order Now on product a, then on product b before a's request settles: after both settle `orderingIds` still holds a, and a's button stays disabled on "Adding..." for the page's lifetime | every request clears its own product, e.g. `onSettled` registered on `useMutation` | medium (depends on the mutation library's documented per-call callback rule), not executed | BuyerDashboard.OverlappedBuyStaysStuck | BuyerDashboard.OverlappedBuyClears |

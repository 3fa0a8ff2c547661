# Spare-Parts-Depot core in Dafny

A model of the logic in a spare-parts web shop: the client cart, the catalogue
controller and its route table, the checkout payload, and the state updates and
button rules of the admin dashboard, order details, inventory and part details
pages. Each piece comes with its contracts and proofs.

The modules, one per file:

- `Base`: ids, `Option`, the signed-in `User` and the pages a handler can go to.
- `Keyed`: find, filter-out and update-in-place over a list keyed by `_id`.
  These are generic over the element type. The cart, the store and the pages
  all use them.
- `Parts`: the `Part` record, the create and update bodies, and the update
  merge with JavaScript `||` truthiness.
- `PartQuery`: the keyword, category and sort selection of `GET /api/parts`.
  These are pure functions. The sort is a stable insertion sort, specified as
  sorted and a permutation.
- `PartController`: the five handlers over a `PartStore` object. The store
  holds the collection as a sequence and keeps ids unique.
- `PartRoutes`: the route table as a (guard, handler) function, and dispatch
  for anonymous and authenticated requesters.
- `CartContext`: the `Cart` class (`addToCart`, `removeFromCart`,
  `clearCart`). Its local-storage copy is a ghost field.
- `CartPage`: the items total and `handleCheckout`.
- `Orders`: the order fields the pages read, and the "delivered implies paid"
  invariant.
- `AdminDashboard`, `OrderDetails`, `Inventory`, `PartDetails`: one class per
  page, holding that page's state.

The model follows these conventions:

- Prices and stock counts are integers, with prices in cents.
- Ids are naturals. The store allocates them from a counter.
- Timestamps are abstract integers passed in by the caller.
- Every network call is a parameter holding its outcome: a reply value, or
  `None`/`false` for a failed request.
- Every `window.confirm` is a `confirmed` parameter.

Three behaviours of the code, stated as proved properties:

- The controller marks create, update and delete as `Private/Admin` in its
  comments (server/controllers/partController.js:56, 82, 111). The route
  table runs only `protect` before them, though, and neither it nor the
  controller consults the role. Any authenticated user can change parts,
  as `PartRoutes.RoleNotConsulted` states.
- An update keeps the old value of every field whose supplied value is
  falsy. A numeric price or stock of 0 in the JSON body and an empty string
  therefore change nothing, as `Parts.FalsyValuesIgnored` states.
- A part with a negative stock count reads "Out of Stock", yet its Add To Cart
  button stays enabled. See `PartDetails.StockViewsAgree`.

The inventory page defines `handleFilterChange` but never calls it: the
search box and the category buttons set their state directly. That function
is modelled anyway. `Inventory.FilterReadBack` states its behaviour,
including that the value 'All' would clear a keyword.

## Model

| member | source | states |
|---|---|---|
| Keyed.Find | client/src/context/CartContext.jsx:18 | the index found holds the id and is the first such index; None exactly when no element has the id |
| Keyed.FindUnique | server/controllers/partController.js:42 | with unique ids, the lookup of an element's own id finds that element |
| Keyed.Without | client/src/context/CartContext.jsx:32 | the filtered list is no longer than the input, and every element kept comes from the input and has a different id |
| Keyed.WithoutMultiset | client/src/context/CartContext.jsx:32 | each element occurs as often as in the input when its id differs, and not at all otherwise |
| Keyed.WithoutAppend | client/src/context/CartContext.jsx:32 | filtering distributes over concatenation, so the kept elements stay in their order |
| Keyed.WithoutAbsent | client/src/context/CartContext.jsx:32 | filtering out an id that is absent returns the list unchanged |
| Keyed.WithoutUnique | client/src/context/CartContext.jsx:32 | filtering preserves unique ids |
| Keyed.RemovesOne | server/controllers/partController.js:116-117 | with unique ids, filtering out the id at index i is the list with position i cut out |
| Keyed.UpdateWhere | client/src/context/CartContext.jsx:21-23 | same length; elements with the id are transformed in place and all others are unchanged |
| Keyed.UpdateUnique | client/src/context/CartContext.jsx:21-23 | an id-preserving update keeps ids unique |
| Parts.NewPart | server/controllers/partController.js:61-71 | the new part is owned by the requester and takes every other field from the body |
| Parts.Merge | server/controllers/partController.js:90-97 | each field takes the supplied value when it is truthy and keeps the old one otherwise; id, owner and creation time are unchanged |
| Parts.FalsyValuesIgnored | server/controllers/partController.js:96-97 | sending a numeric price 0, stock 0 or empty strings leaves those fields unchanged |
| Parts.MergeIdentityAndIdempotence | server/controllers/partController.js:90-97 | an empty body changes nothing, and applying a body twice equals applying it once |
| PartQuery.KeywordFilter | server/controllers/partController.js:8-15 | a keyword filter applies exactly when the keyword is present and non-empty |
| PartQuery.CategoryFilter | server/controllers/partController.js:17-19 | a category filter applies exactly when the category is present, non-empty and not 'All' |
| PartQuery.OrderOf | server/controllers/partController.js:22-27 | 'low' gives ascending price, 'high' descending price, anything else newest first |
| PartQuery.ContainsIff | server/controllers/partController.js:11-12 | the search finds the keyword exactly when it occurs at some offset of the model number |
| PartQuery.KeywordMatches | server/controllers/partController.js:8-15 | a keyword matches a part exactly when its lower-cased form occurs at some offset of the lower-cased model number |
| PartQuery.LowerIdempotent | server/controllers/partController.js:12 | lower-casing twice is lower-casing once |
| PartQuery.CaseIgnored | server/controllers/partController.js:11-12 | for every keyword and part, keywords equal up to case match the same parts, a keyword matches as its lower-case form does, and a model number matches as its lower-case form does |
| PartQuery.Matches | server/controllers/partController.js:8-19 | with neither keyword nor category every part matches; a matching part satisfies each filter the query applies |
| PartQuery.Selected | server/controllers/partController.js:29 | only matching parts of the input are selected |
| PartQuery.SelectedCount | server/controllers/partController.js:29 | each matching part is kept as often as it occurs, and each non-matching part is dropped |
| PartQuery.Insert | server/controllers/partController.js:29 | inserting adds exactly one occurrence of the part |
| PartQuery.InsertSorted | server/controllers/partController.js:29 | inserting into a sorted list keeps it sorted |
| PartQuery.SortParts | server/controllers/partController.js:22-29 | the result is sorted in the requested order and is a permutation of the input |
| PartQuery.ListParts | server/controllers/partController.js:8-29 | the listing is sorted and is a permutation of the parts passing both filters |
| PartQuery.ListedExactly | server/controllers/partController.js:29 | a part is listed exactly when it is stored and matches, as often as it is stored |
| PartQuery.ListedExactlyAll | server/controllers/partController.js:29 | the same, for every part at once |
| PartQuery.NoFilterListsAll | server/controllers/partController.js:8-19 | with no keyword and no category (or 'All') every stored part is listed |
| PartController.PartStore.GetParts | server/controllers/partController.js:6-30 | 200, sorted as asked, and exactly the matching stored parts with their multiplicities |
| PartController.PartStore.GetPartById | server/controllers/partController.js:40-48 | 200 with the stored part exactly when the id exists, otherwise 404 "Part not found" |
| PartController.PartStore.CreatePart | server/controllers/partController.js:57-78 | 201 with a part owned by the requester under a fresh id, appended; a schema rejection gives 400 and stores nothing |
| PartController.PartStore.UpdatePart | server/controllers/partController.js:83-107 | a missing id gives 404 and no change; otherwise only the part with that id is replaced by its merge, which is returned |
| PartController.PartStore.DeletePart | server/controllers/partController.js:112-125 | the store becomes the old store without that id; 200 "Part removed" when the part existed (one part fewer), otherwise 404 and no change; ids stay unique |
| PartController.FoundPartIsUnique | server/controllers/partController.js:42-45 | the part found by id is the only stored part with that id |
| PartRoutes.RouteFor | server/routes/partRoutes.js:12-13 | exactly the five listed method/path pairs have a route; protect guards exactly the non-GET routes |
| PartRoutes.OneRoutePerHandler | server/routes/partRoutes.js:12-13 | each handler is reached from one method on one path shape |
| PartRoutes.Dispatch | server/routes/partRoutes.js:12-13 | unrouted requests are not handled; anonymous requests to guarded routes are stopped; all others reach the route's handler |
| PartRoutes.AnonymousOnlyReads | server/routes/partRoutes.js:12-13 | an anonymous request reaches a handler only with GET |
| PartRoutes.RoleNotConsulted | server/routes/partRoutes.js:12-13 | any two authenticated users reach the same handler, mutations included, so no admin check applies |
| CartContext.Added | client/src/context/CartContext.jsx:17-26 | a part already in the cart gets n more in place and the length is unchanged, with other lines unchanged; a new part is appended with quantity n |
| CartContext.Removed | client/src/context/CartContext.jsx:31-32 | lines kept come from the cart and have a different id |
| CartContext.AddedUnique | client/src/context/CartContext.jsx:17-26 | adding preserves unique ids |
| CartContext.RemovedUnique | client/src/context/CartContext.jsx:31-32 | removing preserves unique ids |
| CartContext.RemovedExactly | client/src/context/CartContext.jsx:31-32 | exactly the lines with the id are dropped, the rest stay in order, and removing an absent id changes nothing |
| CartContext.AddedQty | client/src/context/CartContext.jsx:17-26 | adding n raises that part's quantity by n whether or not it was present, and other ids' quantities are unchanged |
| CartContext.BumpedQty | client/src/context/CartContext.jsx:21-23 | the in-place bump raises the quantity held under the id by n and no other |
| CartContext.AddedAllQty | client/src/context/CartContext.jsx:22 | after successive adds the quantity is the old one plus the sum added, with no stock cap, and ids stay unique |
| CartContext.Cart.constructor | client/src/context/CartContext.jsx:8-15 | the cart starts with the stored list, or empty when nothing is stored |
| CartContext.Cart.AddToCart | client/src/context/CartContext.jsx:17-29 | the items become the added list, the stored copy equals them, and unique ids are preserved |
| CartContext.Cart.RemoveFromCart | client/src/context/CartContext.jsx:31-35 | the items become the filtered list, the stored copy equals them, and unique ids are preserved |
| CartContext.Cart.ClearCart | client/src/context/CartContext.jsx:37-40 | the cart is empty and the stored copy is removed |
| CartPage.Total | client/src/pages/Cart.jsx:12 | the total of an empty cart is 0, and it is non-negative when prices and quantities are |
| CartPage.TotalAppend | client/src/pages/Cart.jsx:12 | the total of a concatenation is the sum of the totals |
| CartPage.TotalAddedExisting | client/src/pages/Cart.jsx:12 | adding n of a part already in the cart raises the total by n times that line's price |
| CartPage.TotalBumped | client/src/pages/Cart.jsx:12 | the in-place bump raises the total by n times the bumped line's price |
| CartPage.TotalAddedNew | client/src/pages/Cart.jsx:12 | adding n of a new part raises the total by n times its price |
| CartPage.TotalRemoved | client/src/pages/Cart.jsx:12 | removing a line lowers the total by that line's amount |
| CartPage.OrderItems | client/src/pages/Cart.jsx:28-31 | one order line per cart line, in order, each being the cart line with product equal to its id |
| CartPage.CheckoutRequest | client/src/pages/Cart.jsx:27-43 | itemsPrice = totalPrice = the cart total, tax and shipping are 0, total = items + tax + shipping, and address and payment method are the fixed ones |
| CartPage.RequestLinesAddUp | client/src/pages/Cart.jsx:28-42 | the posted lines' amounts add up to the itemsPrice the body declares |
| CartPage.LinesAddUp | client/src/pages/Cart.jsx:28-31 | the order lines' amounts sum to the cart total |
| CartPage.HandleCheckout | client/src/pages/Cart.jsx:14-51 | with no user, nothing is sent and the page goes to login; otherwise the body for the current cart is posted; on success the cart is cleared and the page goes to the order; on failure the cart is unchanged and 'Order failed' is alerted |
| AdminDashboard.AfterDelete | client/src/pages/AdminDashboard.jsx:47 | the list keeps only parts from the old list whose id differs |
| AdminDashboard.AfterDeliver | client/src/pages/AdminDashboard.jsx:59 | exactly the orders with the id become delivered at now; the others are unchanged and in place |
| AdminDashboard.DeliverKeepsPaidBeforeDelivered | client/src/pages/AdminDashboard.jsx:190 | delivering an order whose row offered Deliver (paid, not delivered) keeps every delivered order paid |
| AdminDashboard.AdminDashboardPage.constructor | client/src/pages/AdminDashboard.jsx:16-40 | a non-admin is redirected to the dashboard and nothing is fetched; an admin gets both lists, or empty lists when either request fails |
| AdminDashboard.AdminDashboardPage.HandleDelete | client/src/pages/AdminDashboard.jsx:42-52 | nothing happens unless confirmed; after success the part leaves the list; on failure the list is kept and 'Error deleting part' is alerted |
| AdminDashboard.AdminDashboardPage.HandleDeliver | client/src/pages/AdminDashboard.jsx:54-64 | nothing happens unless confirmed; after success exactly the targeted order is marked delivered; on failure the list is kept and 'Update failed' is alerted |
| AdminDashboard.AfterDeleteSorted | client/src/pages/AdminDashboard.jsx:47 | filtering the page's list keeps it in any sort order it had |
| AdminDashboard.LoadedInSync | client/src/pages/AdminDashboard.jsx:27 | the list the page loads with no query holds exactly the store's parts, with their multiplicities, newest first |
| AdminDashboard.DeleteStaysInSync | client/src/pages/AdminDashboard.jsx:46-47 | for one confirmed delete at a time, a page list holding exactly the store's parts newest first still does so afterwards, whether the store answers 200 or 404 |
| Orders.ReadyToDeliver | client/src/pages/AdminDashboard.jsx:190 | the Deliver button appears only on a paid order, and marking that order delivered keeps it paid-before-delivered |
| OrderDetails.PayOffered | client/src/pages/OrderDetails.jsx:142 | Pay is offered only on an order that is not ready to be delivered |
| OrderDetails.DeliverOffered | client/src/pages/OrderDetails.jsx:153 | Mark As Delivered is offered only to an admin, on a paid order, never together with Pay |
| OrderDetails.DeliverNeedsPayment | client/src/pages/OrderDetails.jsx:153 | Mark As Delivered is offered iff the role is admin and the order is paid and undelivered |
| OrderDetails.Subtotals | client/src/pages/OrderDetails.jsx:80-93 | one subtotal per line, each qty × price |
| OrderDetails.OrderDetailsPage.constructor | client/src/pages/OrderDetails.jsx:29-33 | with a user the order is fetched once; without one nothing is fetched and the page keeps loading |
| OrderDetails.OrderDetailsPage.FetchOrder | client/src/pages/OrderDetails.jsx:15-27 | a reply replaces the order, a failure keeps it, and loading ends either way |
| OrderDetails.OrderDetailsPage.HandlePayment | client/src/pages/OrderDetails.jsx:35-47 | a successful pay is followed by one refetch and the success alert; a failure fetches nothing and alerts 'Payment Failed' |
| OrderDetails.OrderDetailsPage.HandleDeliver | client/src/pages/OrderDetails.jsx:49-60 | a successful deliver is followed by one refetch; a failure fetches nothing and alerts 'Update Failed' |
| OrderDetails.OrderDetailsPage.View | client/src/pages/OrderDetails.jsx:62-161 | a spinner while loading, 'Order not found' once loading ends without an order; otherwise Pay iff unpaid, Deliver iff admin, paid and undelivered, and the line subtotals |
| Inventory.KeywordOf | client/src/pages/Inventory.jsx:15 | the term is the URL's keyword when that is non-empty, and empty otherwise |
| Inventory.CategoryOf | client/src/pages/Inventory.jsx:16 | the category is the URL's when non-empty, 'All' otherwise, so never empty |
| Inventory.SortOf | client/src/pages/Inventory.jsx:17 | the sort is the URL's when non-empty, 'newest' otherwise, so never empty |
| Inventory.LowStock | client/src/pages/Inventory.jsx:174 | the LOW STOCK badge shows only for a stock between 1 and 4 |
| Inventory.ParamOr | client/src/pages/Inventory.jsx:15-17 | a missing or empty URL parameter reads as its default |
| Inventory.FetchQuery | client/src/pages/Inventory.jsx:36-39 | the key keyword is present iff the term is non-empty and category iff it is not 'All'; each key carries the page's term, category or sort; sort is always last; no key repeats |
| Inventory.Lookup | client/src/pages/Inventory.jsx:41 | a value is read for a key exactly when the key occurs, and it is one paired with that key; in the fetch query, where no key repeats, it is the only one |
| Inventory.QueryReachesServer | client/src/pages/Inventory.jsx:36-41 | the controller's keyword filter, category filter and order for the sent query are the page's term, category (unless 'All') and sort |
| Inventory.WithFilter | client/src/pages/Inventory.jsx:65-73 | a non-empty value other than 'All' is set under the key, anything else deletes the key, and other keys are unchanged |
| Inventory.FilterReadBack | client/src/pages/Inventory.jsx:65-73 | for the unused `handleFilterChange`: read back through the defaults, a changed filter is the value or its default ('All' would clear a keyword too), and other filters are unchanged |
| Inventory.InventoryPage.constructor | client/src/pages/Inventory.jsx:10-21 | the filter state starts from the URL with defaults '', 'All' and 'newest' |
| Inventory.InventoryPage.SyncFromParams | client/src/pages/Inventory.jsx:26-30 | the filter state is read again from the URL |
| Inventory.InventoryPage.BuildQuery | client/src/pages/Inventory.jsx:36-39 | the appended pairs are the fetch query of the current filter state |
| Inventory.InventoryPage.FetchParts | client/src/pages/Inventory.jsx:33-53 | sends the fetch query; an array reply replaces the list, a non-array reply empties it, a failure keeps it; loading ends |
| Inventory.InventoryPage.HandleFilterChange | client/src/pages/Inventory.jsx:65-73 | the URL parameters become the filter change applied to them; nothing else changes |
| Inventory.InventoryPage.HandleSortChange | client/src/pages/Inventory.jsx:133-136 | sort is set in the URL to the chosen value; nothing else changes |
| Inventory.InventoryPage.SetSearchTerm | client/src/pages/Inventory.jsx:117-118 | only the search term changes |
| Inventory.InventoryPage.SelectCategory | client/src/pages/Inventory.jsx:93 | only the selected category changes |
| Inventory.InventoryPage.ClearFilters | client/src/pages/Inventory.jsx:156 | the term becomes empty and the category 'All'; the sort is kept |
| Inventory.ClearedQueryListsAll | client/src/pages/Inventory.jsx:156 | after clearing, the next query carries only the sort, and every stored part is listed |
| PartDetails.QtyOptions | client/src/pages/PartDetails.jsx:70 | the options are exactly 1..min(stock, 10), strictly ascending, none above the stock |
| PartDetails.ShowsQtySelector | client/src/pages/PartDetails.jsx:62 | the selector shows only with "In Stock" and at least one option |
| PartDetails.AddDisabled | client/src/pages/PartDetails.jsx:81 | a disabled button goes with "Out of Stock" and no selector |
| PartDetails.StockStatus | client/src/pages/PartDetails.jsx:57-58 | "In Stock" iff the stock is positive, "Out of Stock" otherwise |
| PartDetails.StockViewsAgree | client/src/pages/PartDetails.jsx:57-81 | the selector shows only with the button enabled and "In Stock"; a disabled button goes with "Out of Stock"; a negative stock reads "Out of Stock" with the button enabled |
| PartDetails.LowStockFullyOffered | client/src/pages/Inventory.jsx:174 | a part with the LOW STOCK badge (0 < stock < 5) shows the selector, enables the button, and offers every quantity up to its stock |
| PartDetails.PartDetailsPage.constructor | client/src/pages/PartDetails.jsx:10-24 | the selected quantity starts at 1 |
| PartDetails.PartDetailsPage.SelectQty | client/src/pages/PartDetails.jsx:65-75 | the selected quantity becomes the k-th option, k + 1 |
| PartDetails.PartDetailsPage.HandleAddToCart | client/src/pages/PartDetails.jsx:26-29 | the cart becomes the add of the part with the selected quantity, which is at most 10 and at most a positive stock; the page goes to the cart |

## Left out

- The server side of orders is not part of this model. This covers the order
  controller and routes, the Order schema, and the `protect` middleware's
  token check. Only the client pages' view of orders is modelled. `protect`
  is taken to pass an authenticated requester and stop an anonymous one.
- Network, database and browser I/O are outcome parameters, not modelled
  calls. This covers axios, Express, Mongoose and `localStorage`. The stored
  cart copy is a ghost field.
- Thrown errors other than the modelled 404 and create 400 are not
  modelled. These are the 500 replies of the list, get and delete
  handlers, and the 400 reply of an update whose lookup or save throws, for
  example on an invalid ObjectId.
- Mongoose schema validation is not modelled. It appears only as the
  `rejected` parameter of `CreatePart`. An update is never rejected in the
  model.
- Parts.Merge: the update body's price and stock are numbers. The edit form
  sends them as the strings typed into its number inputs, and a typed "0"
  is a truthy string that the update stores and the schema then casts to 0.
  Numeric fields arriving as strings, and the schema's casting, are not
  modelled, so `Parts.FalsyValuesIgnored` covers a numeric 0 only.
- PartQuery.ContainsIff: the keyword is a literal, case-insensitive (ASCII)
  substring of the model number. Regular-expression metacharacters and
  Unicode case folding are not modelled.
- PartQuery.SortParts: the order among parts with equal sort keys is not
  specified. The database leaves it open; the model keeps input order.
- Floating-point prices and `toFixed(2)` formatting are not modelled. Prices
  are integer cents.
- Timestamps are abstract integers and are not formatted. The `deliveredAt`
  that `handleDeliver` writes is the `now` parameter.
- The 500 ms search debounce is not modelled. `FetchParts` is the fetch that
  fires once the timer expires.
- Percent-encoding of query strings is not modelled. URL parameters are a
  key → value map. The fetch query is a list of pairs in which
  `FetchQuery` never repeats a key. Express's handling of a repeated key,
  which yields an array, is not modelled.
- Every handler is modelled as one atomic step from request to state
  update. The source awaits in between, and the new list is computed from
  the list captured when the page rendered. Overlapping requests are
  therefore not captured: a second delete whose reply arrives after the
  first can put back the part the first removed, and an older list reply
  can overwrite a newer one. `AdminDashboard.DeleteStaysInSync` holds for
  one request at a time only.
- Inventory.InventoryPage.FetchParts: the list is not checked to hold parts.
  An array reply is taken to be a list of parts.
- Rendering, styling, animation and navigation plumbing are not modelled.
  The only rendering kept is `OrderDetails.OrderDetailsPage.View`. The
  remaining pages are not part of this model: App, Navbar, Footer, Home,
  Register, Dashboard, Image and AdminPartEdit. Neither are the operational
  scripts.

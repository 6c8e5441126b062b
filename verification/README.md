# Flower shop: orders, cart and checkout, modelled in Dafny

This project models the decision logic of a small flower-shop storefront: an
Express/Mongoose backend that creates and tracks orders, a single-admin
credential gate, and React screens for the cart, checkout, order tracking and
the admin dashboard. Each piece is a pure function over immutable data:

- the order store is a `map<OrderId, Order>`, the catalog a
  `map<ProductId, Product>`, the credential collection a map from `_id` to
  record;
- every route that writes returns the new store together with its response
  (`Reply(store, Result<Order, ApiError>)`), so "nothing changed on failure"
  is a stated property;
- prices are integer cents, dates and timestamps abstract integers;
- the client's HTTP calls, `window.confirm` and the browser redirect become
  parameters (the outcome of the request, a `confirmed` flag).

Modules, one per source file or component:

| module | file | models |
|---|---|---|
| `Common` | common.dfy | `Option`, `Result`, `Math.max` |
| `Statuses` | statuses.dfy | the seven order statuses, five payment statuses, their names and defaults |
| `Catalog` | catalog.dfy | product documents, `required` and `unique` constraints |
| `OrderModel` | order_model.dfy | order documents, defaults, validators, the sparse unique transaction id |
| `OrdersApi` | orders_api.dfy | `POST /orders`, `GET /orders/:id`, `PUT /orders/:id/status`, `PUT /orders/:id/cancel`, the store invariant |
| `OrderListing` | listing.dfy | `GET /orders`, newest first |
| `Credentials` | credentials.dfy | the singleton credential record, `/register`, `/login` |
| `Cart` | cart.dfy | add, change quantity, remove, total |
| `Checkout` | checkout.dfy | delivery date choice, order payload, the screen's payment-progress states |
| `Tracking` | tracking.dfy | order tracking, client cancel guard, status badge |
| `AdminPanel` | admin.dfy | status options, final-status lock, confirmation, badge |
| `Scenarios` | scenarios.dfy | client-to-backend properties and a worked example |

Three behaviours of the code a reader might not expect:

- There is no payment-session or webhook code in the backend. Nothing ever
  writes `paymentStatus` or `paymentTransactionId`; `RunPreservesInvariant`
  proves they keep their creation values (`pending`, absent) forever.
- Cancellation is allowed only from `Order Received`, not also from
  `Payment Pending`, and it leaves `paymentStatus` unchanged.
- The administrator password is stored and compared as a plain string, not
  hashed.

## Model

| member | source | states |
|---|---|---|
| Statuses.ParseOrderStatus | backend/models/Order.js:44-48 | a string is accepted as an order status iff it is one of the seven enum names, and it maps back to the same name |
| Statuses.ParsePaymentStatus | backend/models/Order.js:54-58 | a string is accepted as a payment status iff it is one of the five enum names |
| Statuses.OrderStatusRoundTrip | backend/models/Order.js:44-48 | every order status has an enum name, and parsing that name gives the status back |
| Statuses.PaymentStatusRoundTrip | backend/models/Order.js:54-58 | every payment status has an enum name, and parsing that name gives the status back |
| Statuses.OrderStatusNamesInjective | backend/models/Order.js:46 | two order statuses have the same name iff they are equal |
| Statuses.PaymentStatusNamesInjective | backend/models/Order.js:56 | two payment statuses have the same name iff they are equal |
| Statuses.EnumSizes | backend/models/Order.js:44-58 | there are exactly seven order-status names and five payment-status names |
| Catalog.MissingProductFields | backend/models/Product.js:4-16 | name, price and imageUrl are each reported exactly when missing (an empty string counts as missing) |
| Catalog.ValidateProduct | backend/models/Product.js:3-17 | a product is built iff name, price and imageUrl are all present, and it keeps them as given |
| Catalog.InsertProduct | backend/models/Product.js:3-17 | a new product is saved iff it validates, its id is new and no other product has its name |
| Catalog.InsertPreservesValidCatalog | backend/models/Product.js:4-16 | saving keeps every product complete and all names unique |
| OrderModel.BadQuantities | backend/models/Order.js:29-33 | the line positions reported are exactly those whose quantity is missing or below 1 |
| OrderModel.ValidationErrorsExact | backend/models/Order.js:3-67 | `ValidationErrors`, the set a failed save reports, holds exactly the violated required, min, enum and date constraints |
| OrderModel.Validate | backend/models/Order.js:3-67 | a document saves iff no constraint fails; then it holds the given fields, with defaults orderDate = now, Payment Pending, pending, isImmediate = true; otherwise all failures are listed |
| OrderModel.ValidateToDraftRoundTrip | backend/models/Order.js:3-67 | re-validating a valid stored order gives back the same order |
| OrderModel.ToDraftInjective | backend/models/Order.js:3-67 | two orders with the same id and the same document form are equal |
| OrderModel.StrictRuleImpliesRelaxed | backend/models/Order.js:59-62 | an order valid under the schema as written is valid under the corrected date rule |
| OrderModel.SaveNew | backend/models/Order.js:49-53 | an insert succeeds iff the id is new and a present transaction id is not held by another order; absent ones never clash |
| OrderModel.SaveNewKeepsTransactionIdsUnique | backend/models/Order.js:49-53 | inserts keep present transaction ids unique across the store |
| OrdersApi.HttpStatus | backend/index.js:87-198 | 400 for empty items or a bad status, 404 for a missing order, 403 for a refused cancel, 500 otherwise |
| OrdersApi.LookupLines | backend/index.js:96-107 | succeeds iff every product exists; each line takes name and price from the catalog and quantity from the request; on failure a missing id is reported |
| OrdersApi.DraftTotal | backend/index.js:109 | the server total is a number (not NaN) iff no line's quantity is undefined; a null quantity multiplies as 0 |
| OrdersApi.DraftTotalIsCatalogTotal | backend/index.js:96-109 | the server total equals the sum of catalog price times requested quantity |
| OrdersApi.LinesTotalOfDraft | backend/index.js:109-117 | the stored lines sum to the computed total |
| OrdersApi.NewOrderDraft | backend/index.js:111-118 | the document copies the customer fields and built lines; the client can set no status, date or transaction id; as written it never carries requiredDate and so always violates the date rule |
| OrdersApi.Create | backend/index.js:87-126 | the shared handler: failures leave the store unchanged; empty items and missing products are reported as such; a success stores a new order, valid under the rule in force, under the fresh id, with the customer name, Telegram id and address from the request |
| OrdersApi.CreateOrder | backend/index.js:87-126 | as written, creation never stores anything: empty items give EmptyItems, a missing product gives ProductNotFound, and otherwise validation fails on requiredDate |
| OrdersApi.CreateOrderFixed | backend/index.js:87-126 | corrected creation: failures leave the store unchanged; an order is stored under the new id with the request's customer name, Telegram id and address, catalog names and prices, request quantities, server total, Payment Pending, pending |
| OrdersApi.CreateOrderFixedSucceedsIff | backend/index.js:87-126 | corrected creation succeeds iff the items are non-empty and all exist, the customer fields are filled, quantities are at least 1, the date rule holds and the id is new |
| OrdersApi.NullQuantityFailsOnlyItsLine | backend/models/Order.js:29-38 | a null quantity fails `required` on its own line, while the total stays a number and is not reported; nothing is stored |
| OrdersApi.CreatedTotalIsCatalogTotal | backend/index.js:101-117 | a stored order's total is the catalog total of the request, whatever the client sent |
| OrdersApi.LookupIgnoresClientFields | backend/index.js:96-107 | the lookup depends only on product ids and quantities |
| OrdersApi.CreationIgnoresClientPricing | backend/index.js:88-118 | requests that differ only in the client's total, names and prices give identical results |
| OrdersApi.GetOrder | backend/index.js:140-151 | the stored order if the id exists, NotFound otherwise |
| OrdersApi.SetStatus | backend/index.js:154-175 | a status outside the five accepted names is refused before the lookup; a missing id gives NotFound; an accepted name for a stored order always succeeds, overwriting only orderStatus |
| OrdersApi.SetStatusSucceedsIff | backend/index.js:157-169 | set-status succeeds iff the order exists and the name is of a status other than the two payment states, whatever the current status |
| OrdersApi.CancelOrder | backend/index.js:179-198 | missing id gives NotFound; a status other than Order Received gives NotCancellable with no change; otherwise only orderStatus becomes Cancelled |
| OrdersApi.CancelTwiceRefused | backend/index.js:187-191 | a second cancel is refused and changes nothing |
| OrdersApi.ApplyPreservesInvariant | backend/index.js:87-198 | each route keeps ids, validity, totals and unique transaction ids, and never writes the payment fields |
| OrdersApi.RunPreservesInvariant | backend/index.js:87-198 | any sequence of create, set-status and cancel requests keeps the invariant and leaves paymentStatus pending |
| OrdersApi.OnlyAdminLeavesPaymentPending | backend/index.js:154-198 | an order in Payment Pending is untouched by every request except set-status on that order |
| OrderListing.InsertByDate | backend/index.js:131 | inserting into a newest-first list keeps it newest first and adds exactly that order |
| OrderListing.HeadBound | backend/index.js:131 | prepending an order at least as new as the rest keeps the list newest first |
| OrderListing.SortNewestFirst | backend/index.js:131 | the result is newest first and a permutation of the input |
| OrderListing.KeysHoldingSplit | backend/index.js:131 | removing one key lowers the count of keys holding its own order by one and no other count |
| OrderListing.StoreOrders | backend/index.js:131 | the collection's orders: each order as many times as keys hold it, as many as stored |
| OrderListing.ListOrders | backend/index.js:129-137 | the listing holds each stored order as many times as keys hold it (once per document) and nothing else, newest first |
| Credentials.NewCredential | backend/models/FormData.js:3-10 | a record without an explicit id gets the fixed key singleton; user id and password are kept as given |
| Credentials.InsertCredential | backend/models/FormData.js:4-10 | an insert succeeds iff the key is unused |
| Credentials.SingleKeyAtMostOne | backend/models/FormData.js:4-10 | a collection keyed only by singleton has at most one record |
| Credentials.DefaultKeyAllowsOneRecord | backend/models/FormData.js:4-10 | however many default-keyed records are inserted, at most one exists |
| Credentials.Register | backend/index.js:40-54 | registration is refused with no change iff any record exists; otherwise the one record is created under singleton |
| Credentials.RegisterKeepsSingleton | backend/index.js:44-49 | registration keeps the collection at most one record under the fixed key |
| Credentials.Login | backend/index.js:56-72 | "No records found!" iff no record has the user id; Success only with an exactly equal password; Wrong password otherwise |
| Credentials.LoginOnSingleRecord | backend/index.js:59-66 | with at most one record, login succeeds iff that record has the user id and the exact password |
| Credentials.RegisterThenLogin | backend/index.js:48-66 | after registering, the stored password logs in, any other password is wrong, and another user id is unknown |
| Cart.CartTotalIsReduce | frontend/src/components/Cart.jsx:27-29 | `calculateTotal`'s left-to-right `reduce` from 0 equals `CartTotal`, the sum of price times quantity |
| Cart.CartTotalAppend | frontend/src/components/Cart.jsx:27-29 | the total of a concatenation is the sum of totals |
| Cart.CartTotalUpdate | frontend/src/components/Cart.jsx:27-29 | replacing one entry changes the total by that entry's difference |
| Cart.FindIndex | frontend/src/components/Home.jsx:25 | the first entry with the id, or none iff no entry has it |
| Cart.AddToCart | frontend/src/components/Home.jsx:23-34 | an existing product's first entry gets quantity + 1 and nothing else changes; a new product is appended with quantity 1 |
| Cart.AddToCartKeepsIdsUnique | frontend/src/components/Home.jsx:25-31 | adding keeps entry ids unique and leaves the product in the cart |
| Cart.AddToCartTotal | frontend/src/components/Home.jsx:25-31 | adding raises the total by one unit price |
| Cart.Adjusted | frontend/src/components/Cart.jsx:15 | the quantity becomes quantity + change clamped below at 1, and every other field is kept |
| Cart.UpdateQuantity | frontend/src/components/Cart.jsx:13-19 | matching entries get max(1, quantity + change), other entries, the length and the order are unchanged |
| Cart.IncrementThenDecrement | frontend/src/components/Cart.jsx:13-16 | + then - restores a cart whose quantities are at least 1 |
| Cart.DecrementAtOneIsNoOp | frontend/src/components/Cart.jsx:15 | - on quantity 1 leaves the cart as it is |
| Cart.UpdateQuantityKeepsIds | frontend/src/components/Cart.jsx:14-16 | the ids, and so their uniqueness, are unchanged |
| Cart.RemoveItem | frontend/src/components/Cart.jsx:21-25 | the cart does not grow |
| Cart.RemoveItemMembers | frontend/src/components/Cart.jsx:22 | exactly the entries with another id survive |
| Cart.RemoveItemDistributes | frontend/src/components/Cart.jsx:22 | removal of a concatenation is the concatenation of removals, so order is kept |
| Cart.RemoveAbsentIsIdentity | frontend/src/components/Cart.jsx:22 | removing an absent id returns the cart unchanged |
| Cart.RemoveItemIdempotent | frontend/src/components/Cart.jsx:22 | removing twice is removing once |
| Cart.RemoveSelf | frontend/src/components/Cart.jsx:22 | removing the only entry's id empties a one-entry cart |
| Cart.RemoveSingleEntry | frontend/src/components/Cart.jsx:22 | removing the id of the one entry that has it leaves the entries around it in order |
| Cart.RemoveItemTotal | frontend/src/components/Cart.jsx:21-29 | with unique ids, removing an entry lowers the total by exactly that entry's amount |
| Checkout.PayloadItems | frontend/src/components/Checkout.jsx:61-66 | payload lines correspond one to one, in order, to cart entries with the same id, quantity, name and price |
| Checkout.PayloadTotalIsCartTotal | frontend/src/components/Checkout.jsx:37-67 | the posted total equals the sum over the posted lines |
| Checkout.Submit | frontend/src/components/Checkout.jsx:41-70 | 'later' without a date sends nothing, sets the date error and returns to input_details; otherwise processing, with isImmediate and the date as chosen and the cart's lines and total |
| Checkout.FinishSubmit | frontend/src/components/Checkout.jsx:72-101 | redirecting iff a non-empty session URL came back; failed on a missing or empty URL or any error; only the screen changes |
| Checkout.RetryResubmits | frontend/src/components/Checkout.jsx:267-273 | retry returns to input_details with everything typed kept, so submitting again sends exactly the same request |
| Checkout.ChooseImmediate | frontend/src/components/Checkout.jsx:194-198 | choosing immediate sets the option, clears the date and the date error, and leaves every other field alone |
| Checkout.LaterAfterImmediateNeedsDate | frontend/src/components/Checkout.jsx:194-210 | after immediate then later, the date is gone, so the next submit sends nothing and shows the date error |
| Checkout.PickDate | frontend/src/components/Checkout.jsx:224-227 | the picker's date (none when cleared) is stored and the error cleared; every other field is left alone |
| Checkout.ClearedDateBlocksLater | frontend/src/components/Checkout.jsx:224-227 | a later delivery whose date was cleared is not sent and shows the date error |
| Checkout.PickedDateSubmits | frontend/src/components/Checkout.jsx:46-69 | a later delivery with a picked date is sent with that date and isImmediate false |
| Checkout.Edit | frontend/src/components/Checkout.jsx:128-178 | typing into one of the four inputs sets that detail and leaves the others, the delivery choice and the screen alone |
| Checkout.EditedDetailIsSent | frontend/src/components/Checkout.jsx:56-60 | the request carries each detail as last typed, and typing never decides whether a request is sent |
| Checkout.Step | frontend/src/components/Checkout.jsx:122-273 | an event the page does not offer (form inputs off input_details, the date picker unless later is chosen, the answer outside processing, retry outside failed) changes nothing; no event enters the paid screen; only typing changes the details |
| Checkout.Steps | frontend/src/components/Checkout.jsx:122-273 | over any run of events without typing, the customer details stay as they were |
| Checkout.DateOnlyWhenLaterInvariant | frontend/src/components/Checkout.jsx:194-227 | no run of events from a consistent form (the initial one included) leaves 'immediate' chosen with a date held |
| Checkout.PaidScreenUnreachable | frontend/src/components/Checkout.jsx:41-101 | no sequence of screen events enters the paid state |
| Checkout.RequestItems | frontend/src/components/Checkout.jsx:61-66 | one request item per payload line, in order, with id, quantity, name and price all present |
| Checkout.ToOrderRequest | frontend/src/components/Checkout.jsx:56-73 | the posted body carries every field of the payload: the four details, the lines, the total, the date (null when absent) and isImmediate |
| Tracking.StartTrack | frontend/src/components/Home.jsx:36-43 | previous results are cleared; an empty id sets the error and issues no lookup; otherwise that id is looked up |
| Tracking.FinishTrack | frontend/src/components/Home.jsx:45-55 | a found order is shown; a 404 and other failures set their messages |
| Tracking.Lookup | frontend/src/components/Home.jsx:46-51 | the page finds the order iff the store has it |
| Tracking.Track | frontend/src/components/Home.jsx:36-56 | an empty id gives the enter-id error, a stored id shows that order, an unknown id the not-found message |
| Tracking.CancelRequest | frontend/src/components/Home.jsx:58-64 | a cancel is sent iff an order is shown, it is in Order Received and the user confirms |
| Tracking.TrackThenCancelMatchesBackend | frontend/src/components/Home.jsx:58-67 | after tracking, the page sends a cancel iff the backend would accept it and the user confirms |
| Tracking.HomeBadge | frontend/src/components/Home.jsx:140 | Delivered is bg-success, Cancelled bg-danger, every other status bg-info |
| AdminPanel.OptionNames | frontend/src/components/Admin.jsx:101-103 | one option name per status, in order |
| AdminPanel.OptionsMatchBackend | frontend/src/components/Admin.jsx:11 | the options are exactly, in order, the five names the status route accepts |
| AdminPanel.StatusChangeRequest | frontend/src/components/Admin.jsx:27-99 | a request is sent iff the order is not Delivered or Cancelled, the chosen status differs from the selected one (otherwise no change event fires) and the admin confirms; it names the chosen status |
| AdminPanel.DashboardRequestsSucceed | frontend/src/components/Admin.jsx:27-33 | every request the dashboard sends succeeds and sets exactly the chosen status |
| AdminPanel.FinalStatusGuardIsClientSide | frontend/src/components/Admin.jsx:99 | the dashboard sends nothing for a final order, yet the route would change it |
| AdminPanel.AdminBadge | frontend/src/components/Admin.jsx:84-89 | each of Delivered, Cancelled, On Its Way, Prepared has its class; every other status falls back to bg-info |
| AdminPanel.BadgesAgreeExceptInProgress | frontend/src/components/Admin.jsx:84-89 | the home page and the dashboard colour a status alike iff it is neither On Its Way nor Prepared |
| Scenarios.ImmediateCheckoutHasNoDate | frontend/src/components/Checkout.jsx:46-69 | an immediate checkout is always sent, with no date and isImmediate true |
| Scenarios.StrictSchemaRejectsImmediateCheckout | backend/models/Order.js:59-62 | even with the delivery fields forwarded, the schema as written rejects every immediate checkout on requiredDate |
| Scenarios.CheckoutOrderAccepted | frontend/src/components/Checkout.jsx:56-73 | with the corrected route, a ready cart's checkout is stored |
| Scenarios.CatalogTotalOfCurrentCart | backend/index.js:101-109 | for a cart with current prices, the catalog total equals the cart total |
| Scenarios.StoredTotalMatchesScreenWhenPricesCurrent | backend/index.js:101-117 | with current prices, the stored total equals the total the checkout screen showed |
| Scenarios.ExampleLifecycle | backend/index.js:87-198 | one rose and two sunflowers: as written refused; corrected stored at 11500 in Payment Pending; cancel refused there; Payment Failed refused; Order Received then cancel works with payment still pending; a cancelled order can still be set to Prepared |

## Left out

- Payment sessions and webhooks: the backend has no such routes, so nothing modelled sets `waiting_payment`, `paid`, `failed`, `refunded`, `Payment Failed` or a transaction id.
- Database and transport failures: every `catch` that answers 500 for a database error, and the cast error a malformed id would raise; ids are abstract strings.
- Concurrency: cancel reads and then saves; requests are modelled one at a time.
- Cancel's `save()` re-runs the validators. Under the corrected date rule, on any order satisfying the store invariant only `orderStatus` changes, to an enum member, so that validation cannot fail and is not modelled. Under the schema as written it would re-check `requiredDate`, and an order stored without a date would get a 500 and stay uncancelled; no such order can be stored by the route as written, which stores nothing.
- Express and Mongo plumbing: the connection, product seeding, `GET /products`, static files, CORS and `listen`.
- Floating-point prices and `toFixed` formatting: prices are integer cents.
- OrdersApi.DraftTotal: request quantities are JSON integers, null or absent; a fractional quantity such as 1.5, which passes `min: 1` and is stored, and non-numeric values such as strings, which JavaScript and the schema would coerce, are not modelled.
- Date handling: date-fns formatting, the date picker's minimum date, `Date.now`; a later delivery's payload carries the abstract date itself.
- Browser behaviour: localStorage persistence, `alert`, navigation, rendering, the HTML `required` attributes of the checkout form, the disabled pay button, and the redirect to an empty cart.
- AdminPanel.StatusChangeRequest: for an order in Payment Pending or Payment Failed the select's value matches no option and the browser shows the first one, Order Received; re-choosing that displayed option fires no change event there, while the model sends a request for it. This is browser rendering behaviour, not code of the dashboard.
- The checkout posts to an `/api` prefix the backend does not serve; the model takes each request's outcome as an input instead.
- Credentials.Login: a login body without `userId` or `password` is not modelled, because how the filter treats an undefined value depends on driver settings.
- OrdersApi.LookupLines: reports the first missing product in request order, while the source reports whichever lookup fails first; the contract promises only that the id reported is missing.
- The login, register, success, header, footer and app screens, and the event model: presentation or unused.

## Findings

| source | as written | input that shows it | evidently intended | confidence | as-written member | corrected member |
|---|---|---|---|---|---|---|
| backend/index.js:111-118 | the new order is built without `requiredDate` and `isImmediate`, while the schema requires `requiredDate`, so every creation fails validation | one rose and two sunflower bouquets, all fields filled (`Scenarios.ExampleLifecycle`) | forward `requiredDate` and `isImmediate` from the request body | high; not executed | OrdersApi.CreateOrder | OrdersApi.CreateOrderFixed |
| backend/models/Order.js:59-62 | `requiredDate` is required for every order, but the checkout screen sends `null` for immediate delivery | any immediate checkout of a non-empty cart (`Scenarios.StrictSchemaRejectsImmediateCheckout`) | require the date only when `isImmediate` is false | medium; not executed | Scenarios.StrictSchemaRejectsImmediateCheckout | OrdersApi.CreateOrderFixed |

The corrected creation is what the store invariant, the tracking and the
dashboard properties are proved against; `OrdersApi.CreateOrderFixedSucceedsIff`
and `Scenarios.CheckoutOrderAccepted` state its intended behaviour.

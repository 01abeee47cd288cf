# diner-backend core in Dafny

This project models the business rules of the diner-backend Express/Mongo service. Each
rule is specified and proved in Dafny.

- **Happy hour.** Happy-hour and business-hour windows, and the percentage discount.
- **Checkout.** Validation, the opening-hours gate, the menu lookup, and line pricing under
  happy hour. Then the 7% tax, the order document with its generated order number, and the
  payment-intent step.
- **Admin order routes.** Order tracking, the paginated listing, status updates, and payment
  confirmation.
- **Menu.** The menu listing and item lookup with their price decoration. Creating, updating
  and soft-deleting menu items under the schema's validators and defaults.
- **Users and access.** `protect` and `authorize`, and register, login and `/me` against the
  e-mail-keyed user table. The user's pre-save hashing hook.
- **Admin statistics.** Order counts, revenue and the average order value. The dashboard
  with its popular-items tally.

Modelling conventions:

- **Money** is integer cents. `Math.round(x * 100) / 100` on dollars becomes rounding half
  up to whole cents, so the 7% tax is `(7 * subtotal + 50) / 100`.
- **The store** is a `Db.Store` class holding the three collections as sequences. The core
  never removes a document (menu items are only soft-deleted), so a document's id is its
  position.
- **Handlers that change the store** are methods with `modifies db`. Each states its
  response and the new collections in terms of specification functions. Handlers that only
  read are functions. The two exceptions are the admin statistics and dashboard handlers
  (`AdminRoutes.OrderStats`, `StatsRoute`, `DashboardHandler`, `DashboardRoute`). They
  compute their answer step by step, and the dashboard's tally with nested loops, so they are
  methods without `modifies`.
- **Mongoose hooks.** The two pre-save hooks are methods of the small document classes
  `OrderModel.OrderDocument` and `UserModel.UserDocument`. Each updates its `data` field in
  place.
- **Injected inputs.** These become parameters:
  - the clock: the current hour, `Date.now()`, today's midnight and "30 days ago";
  - the environment: the configured hours;
  - the document count's failure;
  - the payment gateway's answers: the created intent, or none when creation fails, and the
    status it reports.
- **Foreign code.** bcrypt, JWT signing and express-validator's e-mail checks are
  function-valued fields of `Collaborators.Crypto` and `Collaborators.Validators`.
  `verify` answers the id a token was signed for, or nothing.
- **Express-validator failures.** The source answers them with 400 and the validator's
  error list. Here that is a 400 with the single message `Base.InvalidRequest`.
- **Mongoose schema errors.** `ValidationError` gives 500 via the handlers' `catch`. Here it
  is a 500 with `Base.SchemaValidationFailed`.

Where the comments and the code disagree, the model follows the code:

- POST `/api/auth/register` is commented "Private (Admin only)" but mounts no middleware,
  so it is public here (`diner-backend/src/routes/auth.ts:10-20`).
- Register stores role "admin" when none is given, although the schema's default is
  "customer" (`diner-backend/src/routes/auth.ts:40`). `AuthRoutes.RegisterDefaultRole`
  proves it.
- Login never looks at `isActive` (`AuthRoutes.LoginIgnoresActive`). `protect`, however,
  rejects inactive users.

## Model

| member | source | states |
|---|---|---|
| HappyHour.WindowFromEnv | diner-backend/src/utils/happyHour.ts:11-16 | each bound is the configured hour when given, else the window's default |
| HappyHour.ConfigFromEnv | diner-backend/src/utils/happyHour.ts:11-16 | each window bound is its environment hour when set, otherwise the default: 11 and 13 for happy hour, 8 and 15 for business hours (the latter from happyHour.ts:41-42) |
| HappyHour.IsHappyHour | diner-backend/src/utils/happyHour.ts:18-24 | definition: the hour lies in the half-open happy-hour window (its properties in `WindowBounds`, `MisconfiguredWindowIsEmpty`) |
| HappyHour.IsBusinessHours | diner-backend/src/utils/happyHour.ts:38-45 | definition: the hour lies in the half-open business-hours window |
| HappyHour.MisconfiguredWindowIsEmpty | diner-backend/src/utils/happyHour.ts:23 | a window whose start is not before its end contains no hour: there is no wrap-around past midnight |
| HappyHour.WindowBounds | diner-backend/src/utils/happyHour.ts:44 | the window is half-open: its start hour is inside, its end hour and the hour before its start are outside |
| HappyHour.DefaultWindows | diner-backend/src/utils/happyHour.ts:13-14 | with no configuration, hours 11-12 are happy hour and 13 is not; hours 8-14 are business hours and 15 and 7 are not |
| HappyHour.HappyHourPrice | diner-backend/src/utils/happyHour.ts:26-36 | outside happy hour the price is unchanged; inside, it is `original - original·percent/100` rounded half up to the cent |
| HappyHour.HappyHourPriceBounds | diner-backend/src/utils/happyHour.ts:34-35 | for a non-negative price and a percentage from 0 to 100 the discounted price lies between 0 and the original |
| HappyHour.DefaultDiscountExample | diner-backend/src/utils/happyHour.ts:28-35 | the default 20% takes $10.00 to $8.00 at noon and leaves it at $10.00 at 13:00 |
| Money.RoundToCents | diner-backend/src/utils/happyHour.ts:35 | `Math.round` to whole cents: the result is within half a cent of the exact value, ties rounding up |
| Money.RoundToCentsMonotone | diner-backend/src/utils/happyHour.ts:35 | rounding to cents preserves order |
| Money.RoundToCentsExact | diner-backend/src/utils/happyHour.ts:35 | a whole number of cents is left unchanged by rounding |
| Text.Trim | diner-backend/src/models/Menu.ts:20-29 | `trim`: the result starts and ends with a non-space and is no longer than the input |
| Text.TrimRemovesOnlySpace | diner-backend/src/models/Menu.ts:20-29 | `trim` removes only whitespace: the result is a contiguous slice of the input with all-space text on either side |
| Text.TrimIdempotent | diner-backend/src/models/Menu.ts:20-29 | trimming twice is trimming once |
| Text.Lower | diner-backend/src/models/User.ts:32 | `lowercase`: same length, each character lowered, so no A–Z is left and nothing else changes |
| Text.LowerIdempotent | diner-backend/src/models/User.ts:32 | lower-casing twice is lower-casing once |
| Text.Utf16Length | diner-backend/src/models/Order.ts:126 | JavaScript's `length`: between one and two code units per character |
| Text.Utf16LengthBmp | diner-backend/src/models/Order.ts:126 | below U+10000 the code-unit count is the character count |
| Text.Utf16LengthAstral | diner-backend/src/models/Order.ts:126 | characters above U+FFFF count two code units each |
| Text.ValidatorLength | diner-backend/src/routes/auth.ts:17 | validator.js's `isLength` count: at most the character count, and equal to it exactly when no U+FE0E/U+FE0F occurs |
| Text.ValidatorLengthAtMostUtf16 | diner-backend/src/routes/auth.ts:17 | the validator never counts more than the schema, so a password the route accepts meets the schema's `minlength` |
| Text.LengthExamples | diner-backend/src/models/User.ts:38 | three emoji are 3 characters and 6 code units; "abcde" with U+FE0F is 6 characters and 5 to the validator |
| Text.NatToString | diner-backend/src/models/Order.ts:141 | `String(n)`: at least one digit, with no leading zero except for 0 itself |
| Text.NatToStringValue | diner-backend/src/models/Order.ts:141 | the decimal digits denote the number they were made from |
| Text.NatToStringInjective | diner-backend/src/models/Order.ts:141 | different numbers have different decimal strings |
| Text.PadStart | diner-backend/src/models/Order.ts:141 | `padStart`: a string at least as wide as asked is unchanged; otherwise pad characters are prefixed up to the width |
| Text.Split | diner-backend/src/middleware/auth.ts:23 | `split(" ")`: at least one field, none containing the separator |
| Text.JoinSplit | diner-backend/src/middleware/auth.ts:23 | joining the fields of a split with the separator gives back the string |
| Text.SplitJoin | diner-backend/src/middleware/auth.ts:23 | splitting a join of separator-free fields gives back the fields |
| Text.StrLeTotal | diner-backend/src/routes/menu.ts:22 | the string order of the listing's sort is total |
| Text.StrLeTransitive | diner-backend/src/routes/menu.ts:22 | the string order is transitive |
| Text.StrLeAntisymmetric | diner-backend/src/routes/menu.ts:22 | the string order is antisymmetric |
| Collections.Filter | diner-backend/src/routes/admin.ts:103-118 | `filter`: every kept element passes and comes from the input, and every passing input element is kept |
| Collections.FilterAppend | diner-backend/src/routes/admin.ts:103-118 | filtering distributes over concatenation |
| Collections.Sort | diner-backend/src/routes/admin.ts:51 | the sort returns a permutation of its input |
| Collections.SortSorted | diner-backend/src/routes/admin.ts:51 | under a total preorder, the sort's result is in order |
| MenuModel.ParseCategory | diner-backend/src/models/Menu.ts:35-48 | a category string is accepted exactly when it is one of the eight names, and parses to the category of that name |
| MenuModel.CategoryRoundTrip | diner-backend/src/models/Menu.ts:35-48 | every category's name parses back to it |
| MenuModel.CategoryNameInjective | diner-backend/src/models/Menu.ts:35-48 | the eight category names are distinct |
| MenuModel.ValidMenuItem | diner-backend/src/models/Menu.ts:18-77 | definition of the schema invariant: non-empty trimmed name and description, non-negative price and happy-hour price |
| MenuModel.CreateMenuItem | diner-backend/src/models/Menu.ts:18-77 | creation succeeds exactly when name and description are non-empty after trimming, price is present and ≥ 0, the category is in the enum and a given happy-hour price is ≥ 0; the stored item satisfies the schema |
| MenuModel.CreateMenuItemDefaults | diner-backend/src/models/Menu.ts:49-68 | absent flags default to `isAvailable` true, vegetarian, gluten-free and kids false, and `imageUrl` "" |
| MenuModel.PatchText | diner-backend/src/routes/menu.ts:117-121 | an update replaces a text field by the trimmed given value and keeps it when absent |
| MenuModel.UpdateMenuItem | diner-backend/src/routes/menu.ts:117-121 | `findByIdAndUpdate` with validators: accepted exactly when each given field passes its own validator; every given field (name, description, price, category, image URL, the three dietary flags, availability, happy-hour price) is replaced, text trimmed, and every absent one kept |
| MenuModel.UpdateKeepsValid | diner-backend/src/routes/menu.ts:117-121 | an accepted update of a valid item is a valid item |
| MenuModel.EmptyUpdateIsIdentity | diner-backend/src/routes/menu.ts:117-121 | an update with an empty body leaves the item unchanged |
| MenuModel.CurrentPrice | diner-backend/src/routes/orders.ts:54-56 | the happy-hour price when happy hour is on and the item's happy-hour price is truthy (present and non-zero), the regular price otherwise |
| MenuModel.CurrentPriceNonNegative | diner-backend/src/models/Menu.ts:30-34 | the price charged for a stored item is never negative |
| MenuRoutes.ResolvePrice | diner-backend/src/routes/menu.ts:25-35 | `isHappyHour` is true exactly when happy hour is on and the item has a truthy happy-hour price, and then `currentPrice` is that price, otherwise the regular price |
| MenuRoutes.ResolvePriceIsCheckoutPrice | diner-backend/src/routes/menu.ts:27-33 | the listed `currentPrice` is the price checkout charges at the same hour |
| MenuRoutes.MenuLeTotalPreorder | diner-backend/src/routes/menu.ts:22 | the category-then-name order is total and transitive |
| MenuRoutes.ListMenu | diner-backend/src/routes/menu.ts:13-46 | GET /: `count` is the number of listed items, `isHappyHour` the window at that hour, each entry the price-decorated listed item |
| MenuRoutes.ListMenuContents | diner-backend/src/routes/menu.ts:16-22 | the listing holds exactly the stored items that are available and of the requested category (when one is given), each under its own id and unchanged |
| MenuRoutes.ListedEntrySound | diner-backend/src/routes/menu.ts:16-20 | every listed entry is a stored item under its id that matches the query |
| MenuRoutes.ListedEntryComplete | diner-backend/src/routes/menu.ts:16-20 | every stored item matching the query is listed |
| MenuRoutes.ListMenuSorted | diner-backend/src/routes/menu.ts:22 | the listing is ordered by category, then name |
| MenuRoutes.GetMenuItem | diner-backend/src/routes/menu.ts:51-72 | a missing id is 404 "Menu item not found"; any stored item, available or not, is returned with its price decoration |
| MenuRoutes.SoftDelete | diner-backend/src/routes/menu.ts:138-142 | only `isAvailable` of the item is set to false; every other item and modelled field is unchanged (timestamps are not modelled) |
| MenuRoutes.SoftDeletedItemUnlisted | diner-backend/src/routes/menu.ts:136-152 | after a soft delete the item no longer appears in any listing but is still returned by GET /:id |
| MenuRoutes.CreateItem | diner-backend/src/routes/menu.ts:77-110 | the admin gate's rejection, else 400 on a failed validator, 500 on a schema error, else the new item appended under the next id; orders and users untouched |
| MenuRoutes.CreateSchemaRejection | diner-backend/src/routes/menu.ts:81-103 | once the route's validators pass, creation fails exactly for a negative happy-hour price |
| MenuRoutes.UpdateItem | diner-backend/src/routes/menu.ts:115-131 | the gate's rejection, else 500 on a failing validator, 404 on a missing id, else the item replaced by its update |
| MenuRoutes.DeleteItem | diner-backend/src/routes/menu.ts:136-152 | the gate's rejection, else 404 on a missing id, else "Menu item deleted" with the menu soft-deleted at that id |
| OrderModel.ParseStatus | diner-backend/src/models/Order.ts:101-105 | a status string is accepted exactly when it is one of the six names |
| OrderModel.StatusRoundTrip | diner-backend/src/models/Order.ts:101-105 | every status's name parses back to it |
| OrderModel.ParsePaymentMethod | diner-backend/src/models/Order.ts:111-114 | a payment method is accepted exactly when it is "card", "nfc" or "cash" |
| OrderModel.ParseDeliveryType | diner-backend/src/models/Order.ts:118-122 | a delivery type is accepted exactly when it is "dine-in" or "takeaway" |
| OrderModel.ValidOrder | diner-backend/src/models/Order.ts:55-132 | definition of the schema invariant: non-empty customer fields, at least one line, each named with quantity at least 1, non-negative amounts, instructions of at most 500 UTF-16 code units (`Text.Utf16Length`, JavaScript's `length`) |
| OrderModel.CreateOrder | diner-backend/src/models/Order.ts:55-132 | `Order.create` succeeds exactly when the schema's validators pass; the created order is schema-valid with an empty number, tax defaulting to 0, status defaulting to pending, payment pending, no intent; name, phone and instructions trimmed, e-mail trimmed and lower-cased, delivery type and payment method the given enum values, `createdAt` the given instant; the instructions' `maxlength` of 500 counts UTF-16 code units |
| OrderModel.CreateRejectsBadLines | diner-backend/src/models/Order.ts:40-84 | an order with no items, or with a line of quantity below 1, is rejected |
| OrderModel.CreateRejectsLongInstructions | diner-backend/src/models/Order.ts:123-127 | special instructions longer than 500 UTF-16 code units after trimming are rejected |
| OrderModel.CreateRejectsAstralInstructions | diner-backend/src/models/Order.ts:123-127 | more than 250 trimmed characters above U+FFFF (emoji) already exceed the 500-unit bound and are rejected |
| OrderModel.SequenceSuffixDenotes | diner-backend/src/models/Order.ts:141 | the number suffix has at least 4 digits and denotes count + 1 |
| OrderModel.GeneratedOrderNumber | diner-backend/src/models/Order.ts:136-145 | definition: "ORD-", the instant, "-" and the suffix when the count is known, and "ORD-" with the instant alone when the count fails (proved in the order-number lemmas) |
| OrderModel.SequenceSuffixUnpadded | diner-backend/src/models/Order.ts:141 | from 1000 on, the suffix is the plain decimal of count + 1 |
| OrderModel.SequenceSuffixPadded | diner-backend/src/models/Order.ts:141 | below 1000 the suffix is zero-padded to exactly 4 characters |
| OrderModel.GeneratedOrderNumberInjective | diner-backend/src/models/Order.ts:141 | at the same timestamp, different counts give different order numbers |
| OrderModel.TimestampDigits | diner-backend/src/models/Order.ts:141 | `String(1700000000000)` is "1700000000000" |
| OrderModel.SuffixDigits | diner-backend/src/models/Order.ts:141 | a count of 41 gives `String(42).padStart(4, "0")`, that is "0042" |
| OrderModel.OrderNumberExample | diner-backend/src/models/Order.ts:141 | a count of 41 gives the suffix "0042", and at instant 1700000000000 the number `ORD-1700000000000-0042` |
| OrderModel.GeneratedOrderNumberNonEmpty | diner-backend/src/models/Order.ts:136-145 | every generated number, with or without the count, starts with "ORD-" |
| OrderModel.OrderDocument.PreSave | diner-backend/src/models/Order.ts:135-148 | the hook fills in only an empty order number and never overwrites an existing one |
| Pricing.Tax | diner-backend/src/routes/orders.ts:71 | the tax is 7% of the subtotal rounded half up to the cent |
| Pricing.TaxBounds | diner-backend/src/routes/orders.ts:71 | the tax on a non-negative subtotal is between 0 and the subtotal |
| Pricing.SumSubtotalsAppend | diner-backend/src/routes/orders.ts:59 | the running subtotal grows by each line's subtotal |
| Pricing.SumSubtotalsNonNegative | diner-backend/src/routes/orders.ts:58-59 | non-negative line subtotals sum to a non-negative subtotal |
| Pricing.PricedLine | diner-backend/src/routes/orders.ts:53-67 | a line keeps the requested id and quantity, takes the item's name and current price, and its subtotal is price × quantity |
| Pricing.PriceItems | diner-backend/src/routes/orders.ts:42-68 | the checkout loop fails with 400 and the first unavailable item's message exactly when some item is missing or unavailable; otherwise one priced line per request, in order, with the sum of their subtotals |
| Pricing.CartSubtotalNonNegative | diner-backend/src/routes/orders.ts:54-59 | lines priced from a valid menu with positive quantities have a non-negative subtotal |
| Pricing.TotalsNonNegative | diner-backend/src/routes/orders.ts:71-72 | a non-negative subtotal gives a non-negative tax and a total at least the subtotal |
| Pricing.CheckoutExample | diner-backend/src/routes/orders.ts:54-72 | 2 × $8.00 in happy hour gives 1600 / 112 / 1712 cents; 2 × $10.00 outside gives 2000 and a tax of 140 |
| Pricing.ZeroHappyHourPriceFallsBack | diner-backend/src/routes/orders.ts:54-56 | a happy-hour price of 0 is falsy, so the regular price is charged |
| OrderRoutes.FirstUnavailable | diner-backend/src/routes/orders.ts:45-51 | the first requested item that is missing or unavailable, or none exactly when every item is orderable |
| OrderRoutes.CartFor | diner-backend/src/routes/orders.ts:42-68 | the cart has one priced line per request and their summed subtotal |
| OrderRoutes.Precheck | diner-backend/src/routes/orders.ts:26-68 | the checks before anything is saved: a request passes exactly when it is valid, placed in business hours, with every item orderable, and then yields the priced cart; every failure is 400 |
| OrderRoutes.CheckoutOrder | diner-backend/src/routes/orders.ts:70-87 | the created order is accepted exactly when its fields pass the schema, and carries the cart's lines and totals, the generated number, and pending status and payment |
| OrderRoutes.Persist | diner-backend/src/routes/orders.ts:74-107 | the save stage succeeds exactly when `Order.create` accepts the fields, under the next id; otherwise 500 with nothing charged |
| OrderRoutes.PlaceOrder | diner-backend/src/routes/orders.ts:26-107 | POST / as a decision: any precheck failure is its 400 uncharged; an order is placed exactly when the request is valid, in business hours, every item orderable and the schema accepts the priced fields |
| OrderRoutes.CheckoutValidatesFirst | diner-backend/src/routes/orders.ts:18-30 | no items, or a missing or unknown delivery type, is 400 before any other check |
| OrderRoutes.CheckoutClosed | diner-backend/src/routes/orders.ts:32-37 | a valid request outside business hours is 400 "We are currently closed…" and nothing is saved |
| OrderRoutes.CheckoutUnavailable | diner-backend/src/routes/orders.ts:45-51 | in business hours, the first missing or unavailable item gives 400 naming it, and nothing is saved |
| OrderRoutes.PersistedOrder | diner-backend/src/routes/orders.ts:74-87 | the saved order gets the next id, the cart's lines and totals, the generated number, and pending status and payment |
| OrderRoutes.CheckoutPricing | diner-backend/src/routes/orders.ts:42-72 | a placed order has one line per requested item with its happy-hour-aware price; subtotal is their sum, tax 7% of it, total their sum |
| OrderRoutes.PersistedStored | diner-backend/src/routes/orders.ts:74-87 | whatever checkout saves is a schema-valid, numbered, consistently priced order |
| OrderRoutes.CheckoutOrderStored | diner-backend/src/routes/orders.ts:74-87 | an order created from a consistent cart is a stored order once numbered |
| OrderRoutes.CartTotals | diner-backend/src/routes/orders.ts:58-72 | an order takes over a consistent cart's totals consistently |
| OrderRoutes.CheckoutStoresValidOrder | diner-backend/src/routes/orders.ts:74-87 | a placed order is stored at the next id, numbered from the count, pending, and schema-valid |
| OrderRoutes.CheckoutPaymentIntent | diner-backend/src/routes/orders.ts:89-118 | the gateway is asked for the total exactly for placed card and NFC orders; on failure (or for cash) the order keeps no intent id and the response's intent is null; on success both carry the intent |
| OrderRoutes.PersistPayment | diner-backend/src/routes/orders.ts:89-118 | the same four facts for the save stage on its own |
| OrderRoutes.CreateOrderHandler | diner-backend/src/routes/orders.ts:16-125 | POST /: the response and gateway charge are those of the checkout decision; the order is appended exactly when it succeeds, and menu and users are untouched |
| OrderRoutes.PersistOrder | diner-backend/src/routes/orders.ts:74-120 | the save stage: the response is the save decision; the order is appended exactly on success |
| OrderRoutes.SaveOrder | diner-backend/src/routes/orders.ts:74-107 | the order is inserted under the next id and numbered; for card and NFC the total is charged and a returned intent id is saved onto the same stored order |
| OrderRoutes.GetOrder | diner-backend/src/routes/orders.ts:130-142 | any stored order by id, else 404 "Order not found" |
| OrderRoutes.NewerFirstTotalPreorder | diner-backend/src/routes/orders.ts:157 | newest-first by `createdAt` is a total preorder |
| OrderRoutes.Window | diner-backend/src/routes/orders.ts:158-159 | `skip` then `limit` (0 meaning no limit, a negative limit its absolute value) |
| OrderRoutes.CeilDivBounds | diner-backend/src/routes/orders.ts:168 | `Math.ceil(total / limit)` for a positive limit is the least page count covering the total |
| OrderRoutes.OrdersPage | diner-backend/src/routes/orders.ts:149-170 | a negative skip is 500; otherwise total is the number of matching orders, data the window at skip (page-1)·limit, count its length, pages ⌈total/limit⌉ (none for limit 0) |
| OrderRoutes.OrdersQuery | diner-backend/src/routes/orders.ts:149 | an absent `limit` is 50 and an absent `page` 1; with neither, the answer is page 1 holding at most 50 orders, the first window of the matching ones |
| OrderRoutes.DefaultQueryFirstPage | diner-backend/src/routes/orders.ts:149-159 | with no query string the listing is the newest `min(50, total)` matching orders |
| OrderRoutes.ListOrders | diner-backend/src/routes/orders.ts:147-174 | GET /: the admin gate's rejection, else the listing page of the query with its defaults |
| OrderRoutes.OrdersPageContents | diner-backend/src/routes/orders.ts:150-159 | each listed order is stored under its id with the requested status, newest first |
| OrderRoutes.OrdersPagePagination | diner-backend/src/routes/orders.ts:156-168 | with a positive limit a page holds at most `limit` orders, pages covers the total, and a page within range holds `min(limit, total - skip)` orders |
| OrderRoutes.PageArithmetic | diner-backend/src/routes/orders.ts:159-168 | the skip of a page within range lies below the total |
| OrderRoutes.WindowCount | diner-backend/src/routes/orders.ts:158-159 | the window's length is `min(limit, remaining)`, or 0 past the end |
| OrderRoutes.OrdersPageUnlimited | diner-backend/src/routes/orders.ts:158 | a limit of 0 lists every matching order and has no finite page count |
| OrderRoutes.UpdateStatus | diner-backend/src/routes/orders.ts:179-206 | the gate's rejection, else 400 for a status outside the six, 404 for a missing id, else only that order's `status` is changed among the modelled fields (timestamps are not modelled) |
| OrderRoutes.ConfirmOutcome | diner-backend/src/routes/orders.ts:217-234 | with an intent, paid exactly when the gateway says "succeeded", unchanged for any other status, 500 when the gateway call fails; without one, paid unconditionally |
| OrderRoutes.ConfirmOnlyMarksPaid | diner-backend/src/routes/orders.ts:223-234 | confirmation changes no modelled field but `paymentStatus`, and that only to paid (timestamps are not modelled) |
| OrderRoutes.ConfirmPayment | diner-backend/src/routes/orders.ts:211-241 | the gate's rejection, 404 for a missing id, else the confirmation outcome saved in place |
| Db.StoredWithIntent | diner-backend/src/routes/orders.ts:101-102 | saving an intent id onto a stored order keeps it a stored order |
| UserModel.ParseRole | diner-backend/src/models/User.ts:52-56 | a role is accepted exactly when it is admin, staff or customer |
| UserModel.ValidUser | diner-backend/src/models/User.ts:26-71 | definition of the schema invariant: a non-empty normalised e-mail and a non-empty trimmed name |
| UserModel.NormalEmailIsNormal | diner-backend/src/models/User.ts:28-34 | the stored e-mail is lower-cased and trimmed |
| UserModel.LowerKeepsTrimmed | diner-backend/src/models/User.ts:28-34 | lower-casing a trimmed address keeps it trimmed |
| UserModel.NormalEmailIdempotent | diner-backend/src/models/User.ts:28-34 | normalising an e-mail twice is normalising it once |
| UserModel.CreateUser | diner-backend/src/models/User.ts:26-71 | creation succeeds exactly when the schema's validators pass, the password's `minlength` of 6 counting UTF-16 code units; e-mail normalised, name trimmed, role defaulting to customer, `isActive` to true, no `lastLogin` |
| UserModel.CreateUserCountsCodeUnits | diner-backend/src/models/User.ts:35-40 | a password of three emoji is six code units and passes `minlength: 6` |
| UserModel.CreateUserDefaults | diner-backend/src/models/User.ts:52-65 | with no role and no active flag, the user is an active customer |
| UserModel.SparseGoogleId | diner-backend/src/models/User.ts:41-45 | users without a Google id never collide on it: distinct e-mails alone satisfy both unique indexes |
| UserModel.FindByEmail | diner-backend/src/routes/auth.ts:30 | `findOne({ email })` with the query's lower-case and trim setters: the id of a user with that normalised address, or none when no user has it |
| UserModel.FindByEmailUnique | diner-backend/src/models/User.ts:28-34 | in a table with unique addresses, the lookup finds the one user with that address |
| UserModel.UserDocument.PreSave | diner-backend/src/models/User.ts:73-80 | a present, non-empty, modified password is replaced by its hash; otherwise the document is left alone |
| AuthMiddleware.BearerToken | diner-backend/src/middleware/auth.ts:19-29 | a token is found only in a header starting with "Bearer", and it is non-empty and contains no space |
| AuthMiddleware.BearerRoundTrip | diner-backend/src/middleware/auth.ts:22-23 | "Bearer " followed by a space-free token yields that token |
| AuthMiddleware.BearerWithoutToken | diner-backend/src/middleware/auth.ts:23-29 | "Bearer" alone and "Bearer" followed by two spaces carry no token |
| AuthMiddleware.NoBearerPrefix | diner-backend/src/middleware/auth.ts:22-29 | no header, or one not starting with "Bearer", carries no token |
| AuthMiddleware.Authenticate | diner-backend/src/middleware/auth.ts:13-60 | `protect`: every rejection is 401 — "no token provided" without a bearer token, "token failed" when it does not verify, "User not found or inactive" when its user is missing or inactive; it proceeds exactly when a token verifies to the id of a stored active user, attaching that live record's id, e-mail and role |
| AuthMiddleware.Protect | diner-backend/src/middleware/auth.ts:18-55 | the middleware's early-return steps reach the same decision |
| AuthMiddleware.SignedTokenProceeds | diner-backend/src/middleware/auth.ts:31-51 | a token signed for an active user lets that user through with its role |
| AuthMiddleware.InactiveUserRejected | diner-backend/src/middleware/auth.ts:38-43 | a verified token for a deactivated user is 401 "User not found or inactive" |
| AuthMiddleware.Authorize | diner-backend/src/middleware/auth.ts:62-76 | no user is 401, a role outside the list 403, otherwise the request proceeds |
| AuthMiddleware.Gate | diner-backend/src/middleware/auth.ts:13-76 | `protect` then `authorize`: an authentication failure passes through; a passing request has an allowed role |
| AuthMiddleware.GateStatus | diner-backend/src/middleware/auth.ts:26-72 | the gate rejects with 403 exactly when authentication succeeded and the live role is not allowed, otherwise with 401 |
| AuthMiddleware.AdminGate | diner-backend/src/routes/admin.ts:11-12 | the admin gate passes exactly the active admins |
| AuthRoutes.RoleOrAdmin | diner-backend/src/routes/auth.ts:40 | `role \|\| "admin"`: a given non-empty role, else "admin" |
| AuthRoutes.Register | diner-backend/src/routes/auth.ts:20-53 | 400 on a failed validator, the password's `isLength` counting characters other than U+FE0E/U+FE0F (`Text.ValidatorLength`), 400 "User already exists" for a known address, 500 for a role outside the enum or an address that normalises to nothing; succeeds exactly when none of these applies, with a valid user with a fresh normalised address, trimmed name, the given or admin role, and the hashed password |
| AuthRoutes.RegisterSkipsPresentationSelector | diner-backend/src/routes/auth.ts:17 | "abcde" followed by U+FE0F counts five for `isLength` and is refused with 400 |
| AuthRoutes.RegisterDuplicate | diner-backend/src/routes/auth.ts:29-33 | an address already stored, in any case or spacing, is refused with 400 "User already exists" |
| AuthRoutes.RegisterDefaultRole | diner-backend/src/routes/auth.ts:36-41 | without a role, registration succeeds and stores an admin |
| AuthRoutes.RegisterKeepsValid | diner-backend/src/routes/auth.ts:36-41 | adding the registered user keeps the table's addresses and Google ids unique |
| AuthRoutes.Login | diner-backend/src/routes/auth.ts:65-100 | 400 on a failed validator, 401 "Invalid credentials" for an unknown address, 500 when the account has no password; succeeds exactly when the password matches the stored hash, with the id of the user found |
| AuthRoutes.LoginFailuresIndistinguishable | diner-backend/src/routes/auth.ts:74-84 | an unknown address and a wrong password get the identical 401 answer |
| AuthRoutes.LoginIgnoresActive | diner-backend/src/routes/auth.ts:74-88 | deactivating the account does not stop a correct login |
| AuthRoutes.RegisterThenLogin | diner-backend/src/routes/auth.ts:27-84 | after registering, the same address and password log in as the new user (given that a password matches its own hash) |
| AuthRoutes.LoginHandler | diner-backend/src/routes/auth.ts:59-101 | failures change nothing; success sets only that user's `lastLogin` among the modelled fields (no rehash; timestamps are not modelled) and answers its id, e-mail, name, role and a token for its id |
| AuthRoutes.ValidUsersSetLastLogin | diner-backend/src/routes/auth.ts:86-88 | recording a login keeps the user table valid |
| AuthRoutes.RegisterHandler | diner-backend/src/routes/auth.ts:13-54 | failures change nothing; success appends the registered user under the next id and answers it with a token for that id |
| AuthRoutes.MeHandler | diner-backend/src/routes/auth.ts:106-123 | a user id no longer stored is 404 "User not found"; otherwise the stored id, e-mail, name, role and last login |
| AuthRoutes.Me | diner-backend/src/routes/auth.ts:106-123 | GET /me: `protect`'s rejection, else the handler on the authenticated user |
| AuthRoutes.MeAfterProtect | diner-backend/src/routes/auth.ts:106-111 | on the table `protect` checked, an authenticated request always gets its own profile, never the 404 |
| AdminRoutes.StatusCountsSum | diner-backend/src/routes/admin.ts:101-109 | the six per-status counts add up to the number of orders |
| AdminRoutes.PaymentCountsSum | diner-backend/src/routes/admin.ts:110-115 | the four per-payment-status counts add up to the number of orders |
| AdminRoutes.CountsByStatus | diner-backend/src/routes/admin.ts:102-109 | definition: per status, the number of orders in it (they add up by `StatusCountsSum`) |
| AdminRoutes.Revenue | diner-backend/src/routes/admin.ts:116-118 | definition: the sum of the totals of the paid orders (tied to the per-order reference by `RevenueIsPaidContribution`) |
| AdminRoutes.RevenueIsPaidContribution | diner-backend/src/routes/admin.ts:116-118 | the revenue is the sum over all orders of their total when paid and 0 otherwise |
| AdminRoutes.RevenueIgnoresUnpaid | diner-backend/src/routes/admin.ts:116-118 | an order that is not paid never changes the revenue |
| AdminRoutes.RevenueBounds | diner-backend/src/routes/admin.ts:116-118 | with paid totals between 0 and a bound, the revenue lies between 0 and paid count × bound |
| AdminRoutes.AverageOrderValue | diner-backend/src/routes/admin.ts:119-125 | 0 without paid orders, otherwise the value that times the paid count gives the revenue |
| AdminRoutes.AverageBounds | diner-backend/src/routes/admin.ts:119-125 | the average is at least 0, and at most any bound on the paid orders' totals |
| AdminRoutes.Selected | diner-backend/src/routes/admin.ts:88-98 | without both dates every order; with both, every selected order is a stored one created between them (inclusive) and every such order is selected |
| AdminRoutes.OrderStats | diner-backend/src/routes/admin.ts:98-127 | the stats of the selected orders (total, the counts, paid revenue, the average assigned afterwards), with both count groups adding up to the total |
| AdminRoutes.StatsRoute | diner-backend/src/routes/admin.ts:86-131 | the admin gate's rejection, else the stats of the store's orders |
| AdminRoutes.TallyNamesOccur | diner-backend/src/routes/admin.ts:43-53 | the tally's keys are exactly the item names that occur in the recent orders |
| AdminRoutes.TallyDomain | diner-backend/src/routes/admin.ts:43-48 | the tally has an entry for exactly the names in its key order |
| AdminRoutes.TallyValue | diner-backend/src/routes/admin.ts:43-48 | each name's entry is the sum of the quantities of that name's lines |
| AdminRoutes.TallyNamesDistinct | diner-backend/src/routes/admin.ts:50 | the key order lists no name twice |
| AdminRoutes.TallyCounts | diner-backend/src/routes/admin.ts:43-50 | the four tally facts above together, for every name |
| AdminRoutes.TallyEntries | diner-backend/src/routes/admin.ts:50 | `Object.entries`: one pair per key, in key order, with its count |
| AdminRoutes.TallyItems | diner-backend/src/routes/admin.ts:43-48 | the nested loops build the tally and its key order over every line of every recent order |
| AdminRoutes.TallyLines | diner-backend/src/routes/admin.ts:45-47 | the inner loop adds one order's lines to the tally |
| AdminRoutes.TallyAppend | diner-backend/src/routes/admin.ts:46 | one more line changes the tally at its own name only, by its quantity, and adds the name to the key order when new |
| AdminRoutes.TallyMap | diner-backend/src/routes/admin.ts:43-48 | definition: the name-to-quantity tally built line by line (its meaning in `TallyCounts`) |
| AdminRoutes.ByCountDescTotalPreorder | diner-backend/src/routes/admin.ts:51 | the larger-count-first comparator is a total preorder |
| AdminRoutes.Popular | diner-backend/src/routes/admin.ts:50-53 | definition: sort by descending count and keep the first five (its meaning in `PopularTopFive`) |
| AdminRoutes.PopularTopFive | diner-backend/src/routes/admin.ts:50-53 | at most five items (fewer only when fewer exist), largest count first, each an entry of the tally and none kept more often than it occurs (a sub-multiset of the entries, whose keys are distinct by `TallyNamesDistinct`), and every entry left out counts no more than the last kept |
| AdminRoutes.PopularCounts | diner-backend/src/routes/admin.ts:43-53 | each popular item names an item that occurs, carrying its total quantity |
| AdminRoutes.DashboardHandler | diner-backend/src/routes/admin.ts:17-81 | today's order count and paid revenue, pending orders of all time, the popular items of the last 30 days, the menu's total and available counts, and the business status at that hour |
| AdminRoutes.DashboardRoute | diner-backend/src/routes/admin.ts:11-81 | the admin gate's rejection, else the dashboard of the store |
| AdminRoutes.TodayRevenuePaidOnly | diner-backend/src/routes/admin.ts:28-30 | today's revenue is the sum of the totals of today's paid orders, unpaid ones adding nothing |

## Left out

- IEEE floating point. Prices, tax and totals are integer cents, so float artefacts of
  `subtotal * 0.07` are not reproduced.
- AdminRoutes.AverageOrderValue: the average is an exact rational in cents, not a float in
  dollars.
- MenuRoutes.ListMenu: the source re-reads `isHappyHour()` for every listed item and once more for the
  top-level flag, so a listing built across an hour boundary can mix prices. The model evaluates
  one hour for the whole listing.
- Pricing.PriceItems: the source re-reads `isHappyHour()` for every line, so a checkout
  spanning the hour boundary can mix prices. The model fixes one hour per request.
- Time and environment reads are parameters of the model, not reads:
  - the clock (`new Date()`, `Date.now()`, today's midnight, 30 days ago);
  - the environment (`parseInt(process.env…)`). Configured hours are integers, and
    non-numeric text (`NaN`) is not modelled.
  - The dashboard's `isOpen` and `isHappyHour` use the same given hour.
- OrderRoutes.OrdersPage: the query's `limit` and `page` are integers. `Number(...)` of
  non-numeric text (`NaN`) is not modelled. The driver's error for a negative skip is a
  fixed message.
- AdminRoutes.Selected: the bounds are timestamps. Parsing `startDate`/`endDate` with
  `new Date(...)` and empty query strings are not modelled.
- express-validator: `isEmail` and `normalizeEmail` are injected functions. Its error list
  is the single message `Base.InvalidRequest`.
- Timestamps: the schemas' `timestamps: true` maintains `createdAt` and `updatedAt`. The model
  keeps only the order's `createdAt`, given by the caller. No `updatedAt` is modelled, nor a
  menu item's or user's `createdAt`, so the in-place updates do not show the new `updatedAt`
  that `findByIdAndUpdate` and `save()` set and return.
- Text.ValidatorLength: it follows validator.js 13, which leaves U+FE0E and U+FE0F out of
  `isLength`; the package's version is not part of this model.
- Whitespace and case: `trim` knows the common whitespace characters, not all of Unicode.
  `toLowerCase` lowers only A–Z.
- Crypto: bcrypt, JWT signing and verification are injected functions. Token expiry, salts
  and secrets are not modelled, and bcrypt's error text for a missing hash is a fixed
  message.
- Store details not modelled:
  - Mongo's unique-index enforcement. It is an invariant here (`UserModel.UniqueKeys`);
    writes that would violate it are not modelled.
  - `CastError` for malformed ids. Ids are positions, so a malformed id is an absent id.
  - Save failures other than schema validation, and the handlers' outer `catch` (500).
- OrderRoutes.SaveOrder: if saving the intent id fails after the gateway succeeded, the
  source still answers with the intent. The model assumes the save succeeds.
- OrderRoutes.ConfirmPayment: a gateway call that throws becomes a 500 with a fixed message.
- AdminRoutes.TallyEntries: JavaScript lists integer-like object keys (an item named "7")
  before the others. A `__proto__` item name does not create an entry. The model keeps
  plain insertion order for every name.
- AdminRoutes.TallyMap: the source tallies into a plain `{}`. An item named after an
  `Object.prototype` member ("constructor", "toString", "valueOf", "hasOwnProperty", ...)
  first reads the inherited function, which is truthy, so its count becomes a string such as
  `"function Object() { [native code] }2"`. The descending sort's `b - a` is then NaN for
  that entry. The model treats every name as a fresh key and counts it as a number.
- AuthMiddleware.Authenticate: `protect`'s outer `catch` (500 "Server error") is not
  modelled, since the store is not allowed to fail.
- AuthRoutes.LoginHandler: re-running the schema validators on the login save is not
  modelled. The stored record was already valid, and only `lastLogin` changes.
- Concurrency: checkout's count-then-format order number and its check-then-create
  availability race are runtime interleavings, not sequential logic.
- Not part of this model: the e-mail service (`utils/emailService.ts`), the payment client
  (`utils/payment.ts`) beyond the gateway's abstract answers, `utils/generateToken.ts`,
  server bootstrap and database connection scripts, and `middleware/errorHandler.ts`.
  These are I/O and plumbing.

/**
 * The order routes: public checkout and order lookup, and the admin-only listing with
 * pagination, status update and payment confirmation. The payment gateway's answers are
 * parameters: the intent it would create, and the status it reports for an intent.
 */
module OrderRoutes {
  import opened Base
  import opened Text
  import opened Collections
  import opened Collaborators
  import opened HappyHour
  import opened MenuModel
  import opened OrderModel
  import opened Pricing
  import opened AuthMiddleware
  import opened Db

  /** The checkout request body; absent fields are `None`. */
  datatype OrderRequest = OrderRequest(
    customerName: Option<string>,
    customerEmail: Option<string>,
    customerPhone: Option<string>,
    items: seq<LineRequest>,
    deliveryType: Option<string>,
    specialInstructions: Option<string>,
    paymentMethod: Option<string>)

  /** What the payment gateway answers when an intent is created. */
  datatype PaymentIntent = PaymentIntent(id: string, clientSecret: string)

  /** The 201 answer of checkout: the new order's id, the order, and the intent if one was made. */
  datatype Placed = Placed(id: nat, order: Order, paymentIntent: Option<PaymentIntent>)

  /** The answer, and the amount the gateway was asked to charge when it was called. */
  datatype Checkout = Checkout(response: Response<Placed>, charge: Option<int>)

  const ClosedMessage: string := "We are currently closed. Please order during business hours."
  const OrderNotFound: string := "Order not found"
  const ConfirmFailedMessage: string := "Failed to confirm payment"
  const NegativeSkipMessage: string := "skip must not be negative"

  /** The route validators of checkout, with the request validator's e-mail predicate. */
  predicate RequestValid(req: OrderRequest, v: Validators) {
    && RequiredText(req.customerName)
    && req.customerEmail.Some? && v.isEmail(req.customerEmail.value)
    && RequiredText(req.customerPhone)
    && |req.items| >= 1
    && req.deliveryType.Some? && ParseDeliveryType(req.deliveryType.value).Some?
  }

  /** A payment intent is requested for card and NFC payments only. */
  predicate RequestsPayment(paymentMethod: Option<string>) {
    paymentMethod == Some("card") || paymentMethod == Some("nfc")
  }

  /** The first requested line whose item is missing or unavailable, if any. */
  function FirstUnavailable(menu: seq<MenuItem>, reqs: seq<LineRequest>): (r: Option<nat>)
    ensures r.Some? ==> r.value < |reqs| && !Orderable(menu, reqs[r.value].menuItemId)
    ensures r.Some? ==> forall j :: 0 <= j < r.value ==> Orderable(menu, reqs[j].menuItemId)
    ensures r.None? <==> forall j :: 0 <= j < |reqs| ==> Orderable(menu, reqs[j].menuItemId)
  {
    if reqs == [] then None
    else if !Orderable(menu, reqs[0].menuItemId) then Some(0)
    else match FirstUnavailable(menu, reqs[1..])
      case None => None
      case Some(i) => Some(i + 1)
  }

  /** The cart checkout builds when every line is orderable: one snapshot per line, in order. */
  function CartFor(menu: seq<MenuItem>, reqs: seq<LineRequest>, happy: bool): (c: Cart)
    requires forall j :: 0 <= j < |reqs| ==> Orderable(menu, reqs[j].menuItemId)
    ensures |c.lines| == |reqs| && c.subtotal == SumSubtotals(c.lines)
    ensures forall j :: 0 <= j < |reqs| ==> c.lines[j] == PricedLine(menu, reqs[j], happy)
  {
    var lines := seq(|reqs|, j requires 0 <= j < |reqs| => PricedLine(menu, reqs[j], happy));
    Cart(lines, SumSubtotals(lines))
  }

  /** A cart with one snapshot per request, in order, summed, is the cart checkout builds. */
  lemma CartForUnique(menu: seq<MenuItem>, reqs: seq<LineRequest>, happy: bool, c: Cart)
    requires forall j :: 0 <= j < |reqs| ==> Orderable(menu, reqs[j].menuItemId)
    requires |c.lines| == |reqs| && c.subtotal == SumSubtotals(c.lines)
    requires forall j :: 0 <= j < |reqs| ==> c.lines[j] == PricedLine(menu, reqs[j], happy)
    ensures c == CartFor(menu, reqs, happy)
  {
    assert c.lines == CartFor(menu, reqs, happy).lines;
  }

  /**
   * What checkout passes to `Order.create`: the sanitised customer fields, the priced lines,
   * subtotal, tax and total, and status "pending".
   */
  function CheckoutFields(req: OrderRequest, v: Validators, cart: Cart, now: int): OrderFields
    requires RequestValid(req, v)
  {
    var tax := Tax(cart.subtotal);
    OrderFields(
      Trim(req.customerName.value), v.normalizeEmail(req.customerEmail.value), Trim(req.customerPhone.value),
      cart.lines, cart.subtotal, Some(tax), cart.subtotal + tax,
      req.deliveryType.value, req.specialInstructions, req.paymentMethod, Some("pending"), now)
  }

  /**
   * The checks POST / makes before anything is persisted: the route validators, the
   * business-hours check and the availability of every line, then the priced cart.
   */
  function Precheck(menu: seq<MenuItem>, req: OrderRequest, v: Validators, hour: int, cfg: Config): (r: Response<Cart>)
    ensures r.Ok? <==> RequestValid(req, v) && IsBusinessHours(hour, cfg) && FirstUnavailable(menu, req.items).None?
    ensures r.Ok? ==> FirstUnavailable(menu, req.items).None? && r.value == CartFor(menu, req.items, IsHappyHour(hour, cfg))
    ensures r.Err? ==> r.status == BadRequest
  {
    if !RequestValid(req, v) then Err(BadRequest, InvalidRequest)
    else if !IsBusinessHours(hour, cfg) then Err(BadRequest, ClosedMessage)
    else match FirstUnavailable(menu, req.items)
      case Some(i) => Err(BadRequest, UnavailableMessage(req.items[i]))
      case None => Ok(CartFor(menu, req.items, IsHappyHour(hour, cfg)))
  }

  /**
   * `Order.create` on the checkout fields (`None` on a schema error), numbered by the
   * pre-save hook from the order count (absent when the count fails) and the instant.
   */
  function CheckoutOrder(cart: Cart, orderCount: nat, req: OrderRequest, v: Validators, now: nat, countFails: bool)
    : (r: Option<Order>)
    requires RequestValid(req, v)
    ensures r.Some? <==> FieldsAccepted(CheckoutFields(req, v, cart, now))
    ensures r.Some? ==>
      && r.value.items == cart.lines && r.value.subtotal == cart.subtotal
      && r.value.tax == Tax(cart.subtotal) && r.value.total == cart.subtotal + Tax(cart.subtotal)
      && r.value.orderNumber == GeneratedOrderNumber(if countFails then None else Some(orderCount), now)
      && r.value.status == Pending && r.value.paymentStatus == PaymentPending && r.value.paymentIntentId.None?
      && ValidOrder(r.value)
  {
    var created := CreateOrder(CheckoutFields(req, v, cart, now));
    if created.None? then None
    else
      assert ParseStatus("pending") == Some(Pending);
      Some(created.value.(orderNumber := GeneratedOrderNumber(if countFails then None else Some(orderCount), now)))
  }

  /**
   * What POST / does with a priced cart: `Order.create` (500 on a schema error), the order
   * number from the pre-save hook, and the payment intent for card and NFC payments.
   */
  function Persist(cart: Cart, orderCount: nat, req: OrderRequest, v: Validators, now: nat, countFails: bool,
                   intent: Option<PaymentIntent>): (c: Checkout)
    requires RequestValid(req, v)
    ensures c.response.Ok? <==> CheckoutOrder(cart, orderCount, req, v, now, countFails).Some?
    ensures c.response.Err? ==> c.response == Err(ServerError, SchemaValidationFailed) && c.charge.None?
    ensures c.response.Ok? ==> c.response.value.id == orderCount
  {
    var numbered := CheckoutOrder(cart, orderCount, req, v, now, countFails);
    if numbered.None? then Checkout(Err(ServerError, SchemaValidationFailed), None)
    else if !RequestsPayment(req.paymentMethod) then Checkout(Ok(Placed(orderCount, numbered.value, None)), None)
    else if intent.None? then Checkout(Ok(Placed(orderCount, numbered.value, None)), Some(numbered.value.total))
    else Checkout(Ok(Placed(orderCount, numbered.value.(paymentIntentId := Some(intent.value.id)), intent)),
                  Some(numbered.value.total))
  }

  /** POST / as a decision on the store's state before the call. */
  function PlaceOrder(menu: seq<MenuItem>, orderCount: nat, req: OrderRequest, v: Validators,
                      hour: int, cfg: Config, now: nat, countFails: bool,
                      intent: Option<PaymentIntent>): (c: Checkout)
    ensures Precheck(menu, req, v, hour, cfg).Err? ==> c == Checkout(Err(BadRequest, Precheck(menu, req, v, hour, cfg).message), None)
    ensures c.response.Ok? <==>
      && RequestValid(req, v) && IsBusinessHours(hour, cfg) && FirstUnavailable(menu, req.items).None?
      && FieldsAccepted(CheckoutFields(req, v, CartFor(menu, req.items, IsHappyHour(hour, cfg)), now))
  {
    match Precheck(menu, req, v, hour, cfg)
    case Err(status, message) => Checkout(Err(status, message), None)
    case Ok(cart) => Persist(cart, orderCount, req, v, now, countFails, intent)
  }

  /** A request the validators refuse (no items, an unknown delivery type, ...) is answered 400 first. */
  lemma CheckoutValidatesFirst(menu: seq<MenuItem>, orderCount: nat, req: OrderRequest, v: Validators,
                               hour: int, cfg: Config, now: nat, countFails: bool, intent: Option<PaymentIntent>)
    requires |req.items| == 0 || req.deliveryType.None? || ParseDeliveryType(req.deliveryType.value).None?
    ensures PlaceOrder(menu, orderCount, req, v, hour, cfg, now, countFails, intent)
      == Checkout(Err(BadRequest, InvalidRequest), None)
  {
  }

  /** Outside business hours a valid request is refused before any item is looked up. */
  lemma CheckoutClosed(menu: seq<MenuItem>, orderCount: nat, req: OrderRequest, v: Validators,
                       hour: int, cfg: Config, now: nat, countFails: bool, intent: Option<PaymentIntent>)
    requires RequestValid(req, v) && !IsBusinessHours(hour, cfg)
    ensures PlaceOrder(menu, orderCount, req, v, hour, cfg, now, countFails, intent)
      == Checkout(Err(BadRequest, ClosedMessage), None)
  {
  }

  /** A missing or unavailable item refuses the whole order, naming the first such line. */
  lemma CheckoutUnavailable(menu: seq<MenuItem>, orderCount: nat, req: OrderRequest, v: Validators,
                            hour: int, cfg: Config, now: nat, countFails: bool, intent: Option<PaymentIntent>,
                            i: nat)
    requires RequestValid(req, v) && IsBusinessHours(hour, cfg)
    requires i < |req.items| && !Orderable(menu, req.items[i].menuItemId)
    requires forall j :: 0 <= j < i ==> Orderable(menu, req.items[j].menuItemId)
    ensures PlaceOrder(menu, orderCount, req, v, hour, cfg, now, countFails, intent)
      == Checkout(Err(BadRequest, UnavailableMessage(req.items[i])), None)
  {
    var f := FirstUnavailable(menu, req.items);
    assert f.Some? && !Orderable(menu, req.items[f.value].menuItemId);
  }

  /** What `Order.create` and the hook make of an accepted cart. */
  lemma PersistedOrder(cart: Cart, orderCount: nat, req: OrderRequest, v: Validators, now: nat, countFails: bool,
                       intent: Option<PaymentIntent>)
    requires RequestValid(req, v)
    requires Persist(cart, orderCount, req, v, now, countFails, intent).response.Ok?
    ensures var p := Persist(cart, orderCount, req, v, now, countFails, intent).response.value;
      && p.id == orderCount
      && p.order.items == cart.lines && p.order.subtotal == cart.subtotal
      && p.order.tax == Tax(cart.subtotal) && p.order.total == cart.subtotal + Tax(cart.subtotal)
      && p.order.orderNumber == GeneratedOrderNumber(if countFails then None else Some(orderCount), now)
      && p.order.status == Pending && p.order.paymentStatus == PaymentPending
      && ValidOrder(p.order)
  {
  }

  /**
   * A placed order snapshots every requested line in order, at the price of the hour, and
   * its totals are the sum of the lines, the 7% tax and their sum.
   */
  lemma CheckoutPricing(menu: seq<MenuItem>, orderCount: nat, req: OrderRequest, v: Validators,
                        hour: int, cfg: Config, now: nat, countFails: bool, intent: Option<PaymentIntent>)
    requires PlaceOrder(menu, orderCount, req, v, hour, cfg, now, countFails, intent).response.Ok?
    ensures var o := PlaceOrder(menu, orderCount, req, v, hour, cfg, now, countFails, intent).response.value.order;
      && |o.items| == |req.items|
      && (forall j :: 0 <= j < |req.items| ==>
            Orderable(menu, req.items[j].menuItemId)
            && o.items[j] == PricedLine(menu, req.items[j], IsHappyHour(hour, cfg)))
      && o.subtotal == SumSubtotals(o.items)
      && o.tax == Tax(o.subtotal)
      && o.total == o.subtotal + o.tax
  {
    var pre := Precheck(menu, req, v, hour, cfg);
    assert pre.Ok?;
    PersistedOrder(pre.value, orderCount, req, v, now, countFails, intent);
  }

  /** The arithmetic a priced cart satisfies: each line is price times quantity, and the subtotal sums them. */
  ghost predicate CartConsistent(c: Cart) {
    && (forall i :: 0 <= i < |c.lines| ==> c.lines[i].subtotal == c.lines[i].price * c.lines[i].quantity)
    && c.subtotal == SumSubtotals(c.lines)
  }

  /** A consistent cart is persisted as an order that satisfies every invariant of a stored order. */
  lemma PersistedStored(cart: Cart, orderCount: nat, req: OrderRequest, v: Validators, now: nat, countFails: bool,
                        intent: Option<PaymentIntent>)
    requires RequestValid(req, v) && CartConsistent(cart)
    requires Persist(cart, orderCount, req, v, now, countFails, intent).response.Ok?
    ensures StoredOrder(Persist(cart, orderCount, req, v, now, countFails, intent).response.value.order)
  {
    var o := Persist(cart, orderCount, req, v, now, countFails, intent).response.value.order;
    PersistedOrder(cart, orderCount, req, v, now, countFails, intent);
    CartTotals(cart, o);
    GeneratedOrderNumberNonEmpty(if countFails then None else Some(orderCount), now);
  }

  /** The numbered order made from a consistent cart satisfies every invariant of a stored order. */
  lemma CheckoutOrderStored(cart: Cart, orderCount: nat, req: OrderRequest, v: Validators, now: nat, countFails: bool)
    requires RequestValid(req, v) && CartConsistent(cart)
    requires CheckoutOrder(cart, orderCount, req, v, now, countFails).Some?
    ensures StoredOrder(CheckoutOrder(cart, orderCount, req, v, now, countFails).value)
  {
    CartTotals(cart, CheckoutOrder(cart, orderCount, req, v, now, countFails).value);
    GeneratedOrderNumberNonEmpty(if countFails then None else Some(orderCount), now);
  }

  /** An order that carries a consistent cart's lines and subtotal, with the tax on it, has consistent totals. */
  lemma CartTotals(cart: Cart, o: Order)
    requires CartConsistent(cart)
    requires o.items == cart.lines && o.subtotal == cart.subtotal
    requires o.tax == Tax(cart.subtotal) && o.total == cart.subtotal + Tax(cart.subtotal)
    ensures ConsistentTotals(o)
  {
  }

  /**
   * A placed order gets the next id, the generated number, status and payment status
   * "pending", and satisfies every invariant of a stored order.
   */
  lemma CheckoutStoresValidOrder(menu: seq<MenuItem>, orderCount: nat, req: OrderRequest, v: Validators,
                                 hour: int, cfg: Config, now: nat, countFails: bool, intent: Option<PaymentIntent>)
    requires PlaceOrder(menu, orderCount, req, v, hour, cfg, now, countFails, intent).response.Ok?
    ensures var p := PlaceOrder(menu, orderCount, req, v, hour, cfg, now, countFails, intent).response.value;
      && p.id == orderCount
      && p.order.orderNumber == GeneratedOrderNumber(if countFails then None else Some(orderCount), now)
      && p.order.status == Pending && p.order.paymentStatus == PaymentPending
      && StoredOrder(p.order)
  {
    var pre := Precheck(menu, req, v, hour, cfg);
    assert pre.Ok?;
    var cart := pre.value;
    assert PlaceOrder(menu, orderCount, req, v, hour, cfg, now, countFails, intent)
      == Persist(cart, orderCount, req, v, now, countFails, intent);
    assert CartConsistent(cart);
    PersistedOrder(cart, orderCount, req, v, now, countFails, intent);
    PersistedStored(cart, orderCount, req, v, now, countFails, intent);
  }

  /**
   * The gateway is asked for the order's total exactly when an order was placed with card or
   * NFC payment; when it fails the order stands without an intent id and none is returned.
   */
  lemma CheckoutPaymentIntent(menu: seq<MenuItem>, orderCount: nat, req: OrderRequest, v: Validators,
                              hour: int, cfg: Config, now: nat, countFails: bool, intent: Option<PaymentIntent>)
    ensures var c := PlaceOrder(menu, orderCount, req, v, hour, cfg, now, countFails, intent);
      c.charge.Some? <==> c.response.Ok? && RequestsPayment(req.paymentMethod)
    ensures var c := PlaceOrder(menu, orderCount, req, v, hour, cfg, now, countFails, intent);
      c.charge.Some? ==> c.charge.value == c.response.value.order.total
    ensures var c := PlaceOrder(menu, orderCount, req, v, hour, cfg, now, countFails, intent);
      c.response.Ok? && (!RequestsPayment(req.paymentMethod) || intent.None?) ==>
        c.response.value.order.paymentIntentId.None? && c.response.value.paymentIntent.None?
    ensures var c := PlaceOrder(menu, orderCount, req, v, hour, cfg, now, countFails, intent);
      c.response.Ok? && RequestsPayment(req.paymentMethod) && intent.Some? ==>
        c.response.value.order.paymentIntentId == Some(intent.value.id) && c.response.value.paymentIntent == intent
  {
    var pre := Precheck(menu, req, v, hour, cfg);
    if pre.Ok? {
      assert PlaceOrder(menu, orderCount, req, v, hour, cfg, now, countFails, intent)
        == Persist(pre.value, orderCount, req, v, now, countFails, intent);
      PersistPayment(pre.value, orderCount, req, v, now, countFails, intent);
    } else {
      assert PlaceOrder(menu, orderCount, req, v, hour, cfg, now, countFails, intent)
        == Checkout(Err(pre.status, pre.message), None);
    }
  }

  /** The payment part of persisting a cart, as the checkout lemma above states it. */
  lemma PersistPayment(cart: Cart, orderCount: nat, req: OrderRequest, v: Validators, now: nat, countFails: bool,
                       intent: Option<PaymentIntent>)
    requires RequestValid(req, v)
    ensures var c := Persist(cart, orderCount, req, v, now, countFails, intent);
      && (c.charge.Some? <==> c.response.Ok? && RequestsPayment(req.paymentMethod))
      && (c.charge.Some? ==> c.charge.value == c.response.value.order.total)
      && (c.response.Ok? && (!RequestsPayment(req.paymentMethod) || intent.None?) ==>
            c.response.value.order.paymentIntentId.None? && c.response.value.paymentIntent.None?)
      && (c.response.Ok? && RequestsPayment(req.paymentMethod) && intent.Some? ==>
            c.response.value.order.paymentIntentId == Some(intent.value.id) && c.response.value.paymentIntent == intent)
  {
  }

  /**
   * The checkout handler: validation, the hours check and the pricing loop, then the
   * persisting half below.
   */
  method CreateOrderHandler(db: Store, req: OrderRequest, v: Validators, hour: int, cfg: Config, now: nat,
                            countFails: bool, intent: Option<PaymentIntent>)
    returns (r: Response<Placed>, charge: Option<int>)
    requires db.Valid()
    modifies db
    ensures db.Valid()
    ensures db.menu == old(db.menu) && db.users == old(db.users)
    ensures Checkout(r, charge) == PlaceOrder(old(db.menu), |old(db.orders)|, req, v, hour, cfg, now, countFails, intent)
    ensures r.Ok? ==> db.orders == old(db.orders) + [r.value.order]
    ensures r.Err? ==> db.orders == old(db.orders)
  {
    if !RequestValid(req, v) {
      return Err(BadRequest, InvalidRequest), None;
    }
    if !IsBusinessHours(hour, cfg) {
      return Err(BadRequest, ClosedMessage), None;
    }
    var happy := IsHappyHour(hour, cfg);
    var priced := PriceItems(db.menu, req.items, happy);
    if priced.Err? {
      ghost var i :| 0 <= i < |req.items| && !Orderable(db.menu, req.items[i].menuItemId)
        && (forall j :: 0 <= j < i ==> Orderable(db.menu, req.items[j].menuItemId))
        && priced.message == UnavailableMessage(req.items[i]);
      CheckoutUnavailable(db.menu, |db.orders|, req, v, hour, cfg, now, countFails, intent, i);
      return Err(priced.status, priced.message), None;
    }
    var cart := priced.value;
    CartForUnique(db.menu, req.items, happy, cart);
    assert Precheck(db.menu, req, v, hour, cfg) == Ok(cart);
    r, charge := PersistOrder(db, cart, req, v, now, countFails, intent);
  }

  /**
   * The persisting half of checkout: `Order.create` on the checkout fields, then the save
   * below.
   */
  method PersistOrder(db: Store, cart: Cart, req: OrderRequest, v: Validators, now: nat, countFails: bool,
                      intent: Option<PaymentIntent>)
    returns (r: Response<Placed>, charge: Option<int>)
    requires db.Valid() && RequestValid(req, v) && CartConsistent(cart)
    modifies db
    ensures db.Valid()
    ensures db.menu == old(db.menu) && db.users == old(db.users)
    ensures Checkout(r, charge) == Persist(cart, |old(db.orders)|, req, v, now, countFails, intent)
    ensures r.Ok? ==> db.orders == old(db.orders) + [r.value.order]
    ensures r.Err? ==> db.orders == old(db.orders)
  {
    var created := CreateOrder(CheckoutFields(req, v, cart, now));
    if created.None? {
      return Err(ServerError, SchemaValidationFailed), None;
    }
    var id := |db.orders|;
    var count := if countFails then None else Some(id);
    ghost var numbered := created.value.(orderNumber := GeneratedOrderNumber(count, now));
    assert CheckoutOrder(cart, id, req, v, now, countFails) == Some(numbered);
    CheckoutOrderStored(cart, id, req, v, now, countFails);
    r, charge := SaveOrder(db, created.value, count, now, RequestsPayment(req.paymentMethod), intent);
  }

  /**
   * The saves of checkout: the created order is inserted, its pre-save hook numbers it, and
   * for card and NFC payments the gateway is asked for its total and any intent id is saved
   * onto the stored order.
   */
  method SaveOrder(db: Store, created: Order, count: Option<nat>, now: nat, payment: bool,
                   intent: Option<PaymentIntent>)
    returns (r: Response<Placed>, charge: Option<int>)
    requires db.Valid() && created.orderNumber == ""
    requires StoredOrder(created.(orderNumber := GeneratedOrderNumber(count, now)))
    modifies db
    ensures db.Valid()
    ensures db.menu == old(db.menu) && db.users == old(db.users)
    ensures var numbered := created.(orderNumber := GeneratedOrderNumber(count, now));
      && charge == (if payment then Some(numbered.total) else None)
      && r == Ok(Placed(|old(db.orders)|,
                        if payment && intent.Some? then numbered.(paymentIntentId := Some(intent.value.id)) else numbered,
                        if payment then intent else None))
    ensures r.Ok? ==> db.orders == old(db.orders) + [r.value.order]
  {
    var id := |db.orders|;
    ghost var numbered := created.(orderNumber := GeneratedOrderNumber(count, now));
    var doc := new OrderDocument(created);
    doc.PreSave(count, now);
    assert doc.data == numbered;
    ValidOrdersUpdate(db.orders, id, doc.data);
    db.orders := db.orders + [doc.data];
    var paymentIntent: Option<PaymentIntent> := None;
    charge := None;
    if payment {
      charge := Some(doc.data.total);
      if intent.Some? {
        paymentIntent := intent;
        doc.data := doc.data.(paymentIntentId := Some(intent.value.id));
        doc.PreSave(count, now);
        StoredWithIntent(numbered, intent.value.id);
        ResaveLast(old(db.orders), db.orders[id], doc.data);
        ValidOrdersUpdate(old(db.orders), id, doc.data);
        db.orders := db.orders[id := doc.data];
      }
    }
    r := Ok(Placed(id, doc.data, paymentIntent));
  }

  /** GET /:id: any stored order, else 404. */
  function GetOrder(orders: seq<Order>, id: nat): (r: Response<Order>)
    ensures r.Err? <==> id >= |orders|
    ensures r.Err? ==> r.status == NotFound && r.message == OrderNotFound
    ensures r.Ok? ==> r.value == orders[id]
  {
    if id >= |orders| then Err(NotFound, OrderNotFound) else Ok(orders[id])
  }

  /** A stored order together with its id. */
  datatype OrderEntry = OrderEntry(id: nat, order: Order)

  /** The admin listing's answer. `pages` is absent where the division by a zero limit has no finite value. */
  datatype OrderPage = OrderPage(count: nat, total: nat, page: int, pages: Option<int>, data: seq<OrderEntry>)

  function OrderEntries(orders: seq<Order>): (es: seq<OrderEntry>)
    ensures |es| == |orders| && forall i :: 0 <= i < |orders| ==> es[i] == OrderEntry(i, orders[i])
  {
    seq(|orders|, i requires 0 <= i < |orders| => OrderEntry(i, orders[i]))
  }

  /** The listing's query: every order, or those whose status is the given non-empty one. */
  predicate StatusMatches(e: OrderEntry, status: Option<string>) {
    status.None? || status.value == "" || StatusName(e.order.status) == status.value
  }

  /** The listing's sort: newest first. */
  predicate NewerFirst(a: OrderEntry, b: OrderEntry) {
    a.order.createdAt >= b.order.createdAt
  }

  lemma NewerFirstTotalPreorder()
    ensures TotalPreorder(NewerFirst)
  {
  }

  function Abs(n: int): nat {
    if n < 0 then -n else n
  }

  /**
   * The store's `skip` then `limit`: drop `skip` documents, then keep at most `|limit|` of
   * them; a limit of zero keeps all.
   */
  function Window<T>(s: seq<T>, skip: nat, limit: int): (r: seq<T>)
    ensures limit != 0 ==> |r| <= Abs(limit)
    ensures skip >= |s| ==> r == []
    ensures skip < |s| ==> r == (if limit == 0 || Abs(limit) >= |s| - skip then s[skip..] else s[skip..skip + Abs(limit)])
  {
    var rest := if skip >= |s| then [] else s[skip..];
    if limit == 0 || Abs(limit) >= |rest| then rest else rest[..Abs(limit)]
  }

  /** `Math.ceil(a / b)` for a non-zero divisor. */
  function CeilDiv(a: nat, b: int): (c: int)
    requires b != 0
  {
    if b > 0 then (a + b - 1) / b else -(a / -b)
  }

  /** For a positive divisor, `ceil(a / b)` pages of `b` cover `a` and no page is left empty. */
  lemma CeilDivBounds(a: nat, b: int)
    requires b > 0
    ensures (CeilDiv(a, b) - 1) * b < a <= CeilDiv(a, b) * b
  {
    var q := (a + b - 1) / b;
    var rem := (a + b - 1) % b;
    assert a + b - 1 == q * b + rem && 0 <= rem < b;
    assert q * b == a + b - 1 - rem;
    assert (q - 1) * b == q * b - b;
  }

  /** The orders that match the query, newest first. */
  function MatchingOrders(orders: seq<Order>, status: Option<string>): seq<OrderEntry> {
    Sort(Filter(OrderEntries(orders), e => StatusMatches(e, status)), NewerFirst)
  }

  /**
   * The handler of GET /: the query, newest first, the page window with
   * skip = (page - 1) * limit (a negative skip is a store error), the count of all matches,
   * and pages = ceil(total / limit).
   */
  function OrdersPage(orders: seq<Order>, status: Option<string>, limit: int, page: int): (r: Response<OrderPage>)
    ensures r.Err? <==> (page - 1) * limit < 0
    ensures r.Err? ==> r == Err(ServerError, NegativeSkipMessage)
    ensures r.Ok? ==>
      && r.value.total == |MatchingOrders(orders, status)|
      && r.value.data == Window(MatchingOrders(orders, status), (page - 1) * limit, limit)
      && r.value.count == |r.value.data| && r.value.page == page
      && r.value.pages == (if limit == 0 then None else Some(CeilDiv(r.value.total, limit)))
  {
    var skip := (page - 1) * limit;
    if skip < 0 then Err(ServerError, NegativeSkipMessage)
    else
      var matching := MatchingOrders(orders, status);
      var data := Window(matching, skip, limit);
      Ok(OrderPage(|data|, |matching|, page, if limit == 0 then None else Some(CeilDiv(|matching|, limit)), data))
  }

  /** The query's defaults: 50 orders per page, starting at page 1. */
  const DefaultLimit: int := 50
  const DefaultPage: int := 1

  /**
   * The query as given: an absent `limit` or `page` takes its default. Without either, the
   * first page holds the newest matching orders, at most 50 of them.
   */
  function OrdersQuery(orders: seq<Order>, status: Option<string>, limit: Option<int>, page: Option<int>)
    : (r: Response<OrderPage>)
    ensures limit.Some? && page.Some? ==> r == OrdersPage(orders, status, limit.value, page.value)
    ensures limit.None? ==> r == OrdersPage(orders, status, DefaultLimit, OrDefault(page, DefaultPage))
    ensures page.None? ==> r == OrdersPage(orders, status, OrDefault(limit, DefaultLimit), DefaultPage)
    ensures limit.None? && page.None? ==>
      && r.Ok? && r.value.page == 1 && r.value.count <= 50
      && r.value.data == Window(MatchingOrders(orders, status), 0, 50)
  {
    OrdersPage(orders, status, OrDefault(limit, DefaultLimit), OrDefault(page, DefaultPage))
  }

  /** With no query string, the listing is the newest `min(50, total)` matching orders. */
  lemma DefaultQueryFirstPage(orders: seq<Order>, status: Option<string>)
    ensures var r := OrdersQuery(orders, status, None, None);
      var m := MatchingOrders(orders, status);
      r.Ok? && r.value.data == m[..if |m| < 50 then |m| else 50]
  {
  }

  /** GET /: the admin gate, then the handler on the query with its defaults. */
  function ListOrders(users: seq<UserModel.User>, orders: seq<Order>, header: Option<string>, crypto: Crypto,
                      status: Option<string>, limit: Option<int>, page: Option<int>): (r: Response<OrderPage>)
    ensures Gate(users, header, crypto, AdminOnly).Reject? ==>
      r == Err(Gate(users, header, crypto, AdminOnly).status, Gate(users, header, crypto, AdminOnly).message)
    ensures Gate(users, header, crypto, AdminOnly).Proceed? ==> r == OrdersQuery(orders, status, limit, page)
  {
    var gate := Gate(users, header, crypto, AdminOnly);
    if gate.Reject? then Err(gate.status, gate.message) else OrdersQuery(orders, status, limit, page)
  }

  /** Every listed order has the queried status and is listed under its own id, newest first. */
  lemma OrdersPageContents(orders: seq<Order>, status: Option<string>, limit: int, page: int)
    requires OrdersPage(orders, status, limit, page).Ok?
    ensures var d := OrdersPage(orders, status, limit, page).value.data;
      forall k :: 0 <= k < |d| ==>
        d[k].id < |orders| && d[k].order == orders[d[k].id] && StatusMatches(d[k], status)
    ensures var d := OrdersPage(orders, status, limit, page).value.data;
      forall i, j :: 0 <= i < j < |d| ==> d[i].order.createdAt >= d[j].order.createdAt
  {
    var es := OrderEntries(orders);
    var fl := Filter(es, e => StatusMatches(e, status));
    var so := Sort(fl, NewerFirst);
    var skip := (page - 1) * limit;
    var d := OrdersPage(orders, status, limit, page).value.data;
    assert d == Window(so, skip, limit);
    assert forall k :: 0 <= k < |d| ==> d[k] == so[skip + k];
    forall k | 0 <= k < |d|
      ensures d[k].id < |orders| && d[k].order == orders[d[k].id] && StatusMatches(d[k], status)
    {
      PermutationMember(so, fl, skip + k);
      var j :| 0 <= j < |fl| && fl[j] == so[skip + k];
      var i :| 0 <= i < |es| && es[i] == fl[j];
    }
    NewerFirstTotalPreorder();
    SortSorted(fl, NewerFirst);
    forall i, j | 0 <= i < j < |d| ensures d[i].order.createdAt >= d[j].order.createdAt {
      assert NewerFirst(so[skip + i], so[skip + j]);
    }
  }

  /**
   * With a positive limit a page holds at most `limit` orders, the pages cover every match,
   * and none of them is empty.
   */
  lemma OrdersPagePagination(orders: seq<Order>, status: Option<string>, limit: int, page: int)
    requires OrdersPage(orders, status, limit, page).Ok? && limit > 0
    ensures var p := OrdersPage(orders, status, limit, page).value;
      && p.count <= limit && p.pages.Some?
      && (p.pages.value - 1) * limit < p.total <= p.pages.value * limit
    ensures var p := OrdersPage(orders, status, limit, page).value;
      page <= p.pages.value ==> p.count == (if p.total - (page - 1) * limit < limit then p.total - (page - 1) * limit else limit)
  {
    var p := OrdersPage(orders, status, limit, page).value;
    var skip := (page - 1) * limit;
    WindowCount(MatchingOrders(orders, status), skip, limit);
    PageArithmetic(p.total, limit, page, skip, p.pages.value);
  }

  /** The page arithmetic behind the lemma above, on plain numbers. */
  lemma PageArithmetic(total: nat, limit: int, page: int, skip: int, pages: int)
    requires limit > 0 && skip == (page - 1) * limit && skip >= 0 && pages == CeilDiv(total, limit)
    ensures (pages - 1) * limit < total <= pages * limit
    ensures page <= pages ==> skip < total
  {
    CeilDivBounds(total, limit);
    if page <= pages {
      MulMonotone(page - 1, pages - 1, limit);
    }
  }

  /** A window that starts inside the sequence holds the rest of it, up to the limit. */
  lemma WindowCount<T>(s: seq<T>, skip: nat, limit: int)
    requires limit > 0
    ensures |Window(s, skip, limit)| == if skip >= |s| then 0 else if |s| - skip < limit then |s| - skip else limit
  {
  }

  lemma MulMonotone(a: int, b: int, c: int)
    requires a <= b && c > 0
    ensures a * c <= b * c
  {
  }

  /** A limit of zero lists every match from the skipped position on, and has no page count. */
  lemma OrdersPageUnlimited(orders: seq<Order>, status: Option<string>, page: int)
    ensures var r := OrdersPage(orders, status, 0, page);
      r.Ok? && r.value.data == MatchingOrders(orders, status) && r.value.pages.None?
  {
  }

  /** PUT /:id/status: the admin gate, the six-value whitelist (400), 404, then only `status` changes. */
  method UpdateStatus(db: Store, header: Option<string>, crypto: Crypto, id: nat, status: Option<string>)
    returns (r: Response<Order>)
    requires db.Valid()
    modifies db
    ensures db.Valid()
    ensures db.menu == old(db.menu) && db.users == old(db.users)
    ensures Gate(old(db.users), header, crypto, AdminOnly).Reject? ==>
      r == Err(Gate(old(db.users), header, crypto, AdminOnly).status, Gate(old(db.users), header, crypto, AdminOnly).message)
    ensures Gate(old(db.users), header, crypto, AdminOnly).Proceed? && (status.None? || ParseStatus(status.value).None?) ==>
      r == Err(BadRequest, InvalidRequest)
    ensures Gate(old(db.users), header, crypto, AdminOnly).Proceed? && status.Some? && ParseStatus(status.value).Some?
            && id >= |old(db.orders)| ==>
      r == Err(NotFound, OrderNotFound)
    ensures r.Ok? <==> Gate(old(db.users), header, crypto, AdminOnly).Proceed? && status.Some?
                       && ParseStatus(status.value).Some? && id < |old(db.orders)|
    ensures r.Ok? ==>
      && r.value == old(db.orders)[id].(status := ParseStatus(status.value).value)
      && StatusName(r.value.status) == status.value
      && db.orders == old(db.orders)[id := r.value]
    ensures r.Err? ==> db.orders == old(db.orders)
  {
    var gate := Gate(db.users, header, crypto, AdminOnly);
    if gate.Reject? {
      return Err(gate.status, gate.message);
    }
    if status.None? || ParseStatus(status.value).None? {
      return Err(BadRequest, InvalidRequest);
    }
    if id >= |db.orders| {
      return Err(NotFound, OrderNotFound);
    }
    var updated := db.orders[id].(status := ParseStatus(status.value).value);
    ValidOrdersUpdate(db.orders, id, updated);
    db.orders := db.orders[id := updated];
    r := Ok(updated);
  }

  /** A truthy payment-intent id: present and not empty. */
  predicate HasIntent(o: Order) {
    o.paymentIntentId.Some? && o.paymentIntentId.value != ""
  }

  /**
   * The confirm-payment decision for an order, given the status the gateway reports for its
   * intent (`None` when the lookup fails): with an intent, "paid" only on "succeeded";
   * without one, "paid" unconditionally.
   */
  function ConfirmOutcome(o: Order, gatewayStatus: Option<string>): (r: Response<Order>)
    ensures HasIntent(o) && gatewayStatus.None? ==> r == Err(ServerError, ConfirmFailedMessage)
    ensures HasIntent(o) && gatewayStatus == Some("succeeded") ==> r == Ok(o.(paymentStatus := Paid))
    ensures HasIntent(o) && gatewayStatus.Some? && gatewayStatus.value != "succeeded" ==> r == Ok(o)
    ensures !HasIntent(o) ==> r == Ok(o.(paymentStatus := Paid))
  {
    if HasIntent(o) then
      if gatewayStatus.None? then Err(ServerError, ConfirmFailedMessage)
      else if gatewayStatus.value == "succeeded" then Ok(o.(paymentStatus := Paid))
      else Ok(o)
    else Ok(o.(paymentStatus := Paid))
  }

  /** Confirmation changes at most the payment status, and only ever to "paid". */
  lemma ConfirmOnlyMarksPaid(o: Order, gatewayStatus: Option<string>)
    requires ConfirmOutcome(o, gatewayStatus).Ok?
    ensures var c := ConfirmOutcome(o, gatewayStatus).value;
      c.(paymentStatus := o.paymentStatus) == o && (c.paymentStatus == o.paymentStatus || c.paymentStatus == Paid)
  {
  }

  /** POST /:id/confirm-payment: the admin gate, 404, then the decision, saved onto the order. */
  method ConfirmPayment(db: Store, header: Option<string>, crypto: Crypto, id: nat, gatewayStatus: Option<string>)
    returns (r: Response<Order>)
    requires db.Valid()
    modifies db
    ensures db.Valid()
    ensures db.menu == old(db.menu) && db.users == old(db.users)
    ensures Gate(old(db.users), header, crypto, AdminOnly).Reject? ==>
      r == Err(Gate(old(db.users), header, crypto, AdminOnly).status, Gate(old(db.users), header, crypto, AdminOnly).message)
    ensures Gate(old(db.users), header, crypto, AdminOnly).Proceed? && id >= |old(db.orders)| ==>
      r == Err(NotFound, OrderNotFound)
    ensures Gate(old(db.users), header, crypto, AdminOnly).Proceed? && id < |old(db.orders)| ==>
      r == ConfirmOutcome(old(db.orders)[id], gatewayStatus)
    ensures r.Ok? ==> db.orders == old(db.orders)[id := r.value]
    ensures r.Err? ==> db.orders == old(db.orders)
  {
    var gate := Gate(db.users, header, crypto, AdminOnly);
    if gate.Reject? {
      return Err(gate.status, gate.message);
    }
    if id >= |db.orders| {
      return Err(NotFound, OrderNotFound);
    }
    var order := db.orders[id];
    if order.paymentIntentId.Some? && order.paymentIntentId.value != "" {
      if gatewayStatus.None? {
        return Err(ServerError, ConfirmFailedMessage);
      }
      if gatewayStatus.value == "succeeded" {
        order := order.(paymentStatus := Paid);
      }
    } else {
      order := order.(paymentStatus := Paid);
    }
    ValidOrdersUpdate(db.orders, id, order);
    db.orders := db.orders[id := order];
    r := Ok(order);
  }
}

/**
 * The order schema: the status, payment and delivery enumerations, the embedded order
 * lines, the setters, defaults and validators run when an order is created, and the
 * pre-save hook that generates the human-readable order number.
 */
module OrderModel {
  import opened Base
  import opened Text

  datatype OrderStatus = Pending | Confirmed | Preparing | Ready | Completed | Cancelled

  const AllStatuses: seq<OrderStatus> := [Pending, Confirmed, Preparing, Ready, Completed, Cancelled]

  function StatusName(s: OrderStatus): string {
    match s
    case Pending => "pending"
    case Confirmed => "confirmed"
    case Preparing => "preparing"
    case Ready => "ready"
    case Completed => "completed"
    case Cancelled => "cancelled"
  }

  /** The six-value whitelist of the status enum and of the status-update validator. */
  function ParseStatus(s: string): (r: Option<OrderStatus>)
    ensures r.Some? ==> StatusName(r.value) == s
    ensures r.None? ==> forall t: OrderStatus :: StatusName(t) != s
  {
    if s == "pending" then Some(Pending)
    else if s == "confirmed" then Some(Confirmed)
    else if s == "preparing" then Some(Preparing)
    else if s == "ready" then Some(Ready)
    else if s == "completed" then Some(Completed)
    else if s == "cancelled" then Some(Cancelled)
    else None
  }

  lemma StatusRoundTrip(s: OrderStatus)
    ensures ParseStatus(StatusName(s)) == Some(s)
  {
  }

  datatype PaymentStatus = PaymentPending | Paid | PaymentFailed | Refunded

  const AllPaymentStatuses: seq<PaymentStatus> := [PaymentPending, Paid, PaymentFailed, Refunded]

  function PaymentStatusName(p: PaymentStatus): string {
    match p
    case PaymentPending => "pending"
    case Paid => "paid"
    case PaymentFailed => "failed"
    case Refunded => "refunded"
  }

  datatype PaymentMethod = Card | Nfc | Cash

  function PaymentMethodName(m: PaymentMethod): string {
    match m
    case Card => "card"
    case Nfc => "nfc"
    case Cash => "cash"
  }

  /** The `paymentMethod` enum validator. */
  function ParsePaymentMethod(s: string): (r: Option<PaymentMethod>)
    ensures r.Some? ==> PaymentMethodName(r.value) == s
    ensures r.None? ==> forall m: PaymentMethod :: PaymentMethodName(m) != s
  {
    if s == "card" then Some(Card) else if s == "nfc" then Some(Nfc) else if s == "cash" then Some(Cash) else None
  }

  datatype DeliveryType = DineIn | Takeaway

  function DeliveryTypeName(d: DeliveryType): string {
    match d
    case DineIn => "dine-in"
    case Takeaway => "takeaway"
  }

  /** The `deliveryType` enum validator (and the checkout route's `isIn` list). */
  function ParseDeliveryType(s: string): (r: Option<DeliveryType>)
    ensures r.Some? ==> DeliveryTypeName(r.value) == s
    ensures r.None? ==> forall d: DeliveryType :: DeliveryTypeName(d) != s
  {
    if s == "dine-in" then Some(DineIn) else if s == "takeaway" then Some(Takeaway) else None
  }

  /** A line snapshot: the item's name and unit price at checkout time; amounts in cents. */
  datatype OrderLine = OrderLine(menuItemId: nat, name: string, quantity: int, price: int, subtotal: int)

  datatype Order = Order(
    orderNumber: string,               // "" until the pre-save hook has run
    customerName: string,
    customerEmail: string,
    customerPhone: string,
    items: seq<OrderLine>,
    subtotal: int,
    tax: int,
    total: int,
    status: OrderStatus,
    paymentStatus: PaymentStatus,
    paymentMethod: Option<PaymentMethod>,
    paymentIntentId: Option<string>,
    deliveryType: DeliveryType,
    specialInstructions: Option<string>,
    createdAt: int)

  /** What `Order.create` is given; absent fields are `None`. */
  datatype OrderFields = OrderFields(
    customerName: string,
    customerEmail: string,
    customerPhone: string,
    items: seq<OrderLine>,
    subtotal: int,
    tax: Option<int>,
    total: int,
    deliveryType: string,
    specialInstructions: Option<string>,
    paymentMethod: Option<string>,
    status: Option<string>,
    createdAt: int)

  const MaxInstructionsLength: nat := 500

  predicate ValidLine(l: OrderLine) {
    l.name != "" && l.quantity >= 1
  }

  /** What the schema guarantees of every stored order. */
  predicate ValidOrder(o: Order) {
    && o.customerName != "" && o.customerEmail != "" && o.customerPhone != ""
    && |o.items| > 0
    && (forall i :: 0 <= i < |o.items| ==> ValidLine(o.items[i]))
    && o.subtotal >= 0 && o.tax >= 0 && o.total >= 0
    && (o.specialInstructions.Some? ==> Utf16Length(o.specialInstructions.value) <= MaxInstructionsLength)
  }

  /** The setters: trim on the text fields, lower case on the e-mail. */
  function Instructions(f: OrderFields): Option<string> {
    if f.specialInstructions.Some? then Some(Trim(f.specialInstructions.value)) else None
  }

  predicate FieldsAccepted(f: OrderFields) {
    && Trim(f.customerName) != "" && Lower(Trim(f.customerEmail)) != "" && Trim(f.customerPhone) != ""
    && |f.items| > 0
    && (forall i :: 0 <= i < |f.items| ==> ValidLine(f.items[i]))
    && f.subtotal >= 0 && (f.tax.Some? ==> f.tax.value >= 0) && f.total >= 0
    && (f.status.Some? ==> ParseStatus(f.status.value).Some?)
    && (f.paymentMethod.Some? ==> ParsePaymentMethod(f.paymentMethod.value).Some?)
    && ParseDeliveryType(f.deliveryType).Some?
    && (f.specialInstructions.Some? ==> Utf16Length(Trim(f.specialInstructions.value)) <= MaxInstructionsLength)
  }

  /**
   * Document creation: setters, defaults (tax 0, status and payment status "pending"), then
   * validation. `None` is the schema's ValidationError. The order number is still empty.
   */
  function CreateOrder(f: OrderFields): (r: Option<Order>)
    ensures r.Some? <==> FieldsAccepted(f)
    ensures r.Some? ==> ValidOrder(r.value) && r.value.orderNumber == ""
    ensures r.Some? ==>
      && r.value.items == f.items && r.value.subtotal == f.subtotal && r.value.total == f.total
      && r.value.tax == (if f.tax.Some? then f.tax.value else 0)
      && r.value.status == (if f.status.Some? then ParseStatus(f.status.value).value else Pending)
      && r.value.paymentStatus == PaymentPending
      && r.value.paymentIntentId.None?
      && r.value.customerName == Trim(f.customerName)
      && r.value.customerEmail == Lower(Trim(f.customerEmail))
      && r.value.customerPhone == Trim(f.customerPhone)
      && DeliveryTypeName(r.value.deliveryType) == f.deliveryType
      && (f.paymentMethod.None? ==> r.value.paymentMethod.None?)
      && (f.paymentMethod.Some? ==>
            r.value.paymentMethod.Some? && PaymentMethodName(r.value.paymentMethod.value) == f.paymentMethod.value)
      && r.value.specialInstructions == Instructions(f)
      && r.value.createdAt == f.createdAt
  {
    if FieldsAccepted(f) then
      Some(Order(
        "", Trim(f.customerName), Lower(Trim(f.customerEmail)), Trim(f.customerPhone),
        f.items, f.subtotal, if f.tax.Some? then f.tax.value else 0, f.total,
        if f.status.Some? then ParseStatus(f.status.value).value else Pending,
        PaymentPending,
        if f.paymentMethod.Some? then Some(ParsePaymentMethod(f.paymentMethod.value).value) else None,
        None,
        ParseDeliveryType(f.deliveryType).value,
        Instructions(f),
        f.createdAt))
    else None
  }

  /** An order without lines, or with a line of quantity below one, is never created. */
  lemma CreateRejectsBadLines(f: OrderFields)
    requires |f.items| == 0 || exists i :: 0 <= i < |f.items| && f.items[i].quantity < 1
    ensures CreateOrder(f).None?
  {
  }

  /** Instructions longer than 500 UTF-16 code units once trimmed are refused. */
  lemma CreateRejectsLongInstructions(f: OrderFields)
    requires f.specialInstructions.Some? && Utf16Length(Trim(f.specialInstructions.value)) > MaxInstructionsLength
    ensures CreateOrder(f).None?
  {
  }

  /**
   * The bound counts code units: more than 250 trimmed characters that all lie above U+FFFF,
   * such as emoji, already exceed it.
   */
  lemma CreateRejectsAstralInstructions(f: OrderFields)
    requires f.specialInstructions.Some? && |Trim(f.specialInstructions.value)| > MaxInstructionsLength / 2
    requires forall k :: 0 <= k < |Trim(f.specialInstructions.value)| ==> Trim(f.specialInstructions.value)[k] as int >= 0x10000
    ensures CreateOrder(f).None?
  {
    Utf16LengthAstral(Trim(f.specialInstructions.value));
  }

  /** The four-digit, zero-padded sequence part of an order number. */
  function SequenceSuffix(count: nat): string {
    PadStart(NatToString(count + 1), 4, '0')
  }

  /**
   * The number the pre-save hook generates from the order count (absent when the count
   * query failed) and `Date.now()`.
   */
  function GeneratedOrderNumber(count: Option<nat>, now: nat): string {
    match count
    case Some(c) => "ORD-" + NatToString(now) + "-" + SequenceSuffix(c)
    case None => "ORD-" + NatToString(now)
  }

  /** The suffix has at least four digits and denotes `count + 1`. */
  lemma SequenceSuffixDenotes(count: nat)
    ensures var sfx := SequenceSuffix(count);
      |sfx| >= 4 && AllDigits(sfx) && DigitsValue(sfx) == count + 1
  {
    var digits := NatToString(count + 1);
    NatToStringValue(count + 1);
    if |digits| < 4 {
      assert SequenceSuffix(count) == Repeat('0', 4 - |digits|) + digits;
      LeadingZerosValue(4 - |digits|, digits);
    }
  }

  function Pow10(k: nat): nat {
    if k == 0 then 1 else 10 * Pow10(k - 1)
  }

  /** A number has more than `k` digits exactly when it is at least `10^k`. */
  lemma {:induction false} NatToStringLength(n: nat, k: nat)
    requires k >= 1
    ensures n >= Pow10(k) <==> |NatToString(n)| >= k + 1
  {
    if n >= 10 {
      if k >= 2 {
        NatToStringLength(n / 10, k - 1);
      }
    } else {
      PowerAtLeastTen(k);
    }
  }

  lemma {:induction false} PowerAtLeastTen(k: nat)
    requires k >= 1
    ensures Pow10(k) >= 10
  {
    if k > 1 {
      PowerAtLeastTen(k - 1);
    }
  }

  /** From order 1000 on, padding changes nothing: the suffix is the plain decimal count. */
  lemma SequenceSuffixUnpadded(count: nat)
    requires count + 1 >= 1000
    ensures SequenceSuffix(count) == NatToString(count + 1)
  {
    NatToStringLength(count + 1, 3);
  }

  /** Below that, the count is padded with zeros to exactly four characters. */
  lemma SequenceSuffixPadded(count: nat)
    requires count + 1 < 1000
    ensures |SequenceSuffix(count)| == 4 && SequenceSuffix(count)[0] == '0'
  {
    NatToStringLength(count + 1, 3);
  }

  /** At the same instant, different counts give different order numbers. */
  lemma GeneratedOrderNumberInjective(c1: nat, c2: nat, now: nat)
    requires GeneratedOrderNumber(Some(c1), now) == GeneratedOrderNumber(Some(c2), now)
    ensures c1 == c2
  {
    var prefix := "ORD-" + NatToString(now) + "-";
    var s1 := SequenceSuffix(c1);
    var s2 := SequenceSuffix(c2);
    assert prefix + s1 == prefix + s2;
    assert s1 == (prefix + s1)[|prefix|..];
    assert s2 == (prefix + s2)[|prefix|..];
    SequenceSuffixDenotes(c1);
    SequenceSuffixDenotes(c2);
  }

  /** The decimal form of the example instant, one digit at a time. */
  lemma TimestampDigits()
    ensures NatToString(1700000000000) == "1700000000000"
  {
    assert NatToString(1) == "1";
    assert NatToString(17) == "17";
    assert NatToString(170) == "170";
    assert NatToString(1700) == "1700";
    assert NatToString(17000) == "17000";
    assert NatToString(170000) == "170000";
    assert NatToString(1700000) == "1700000";
    assert NatToString(17000000) == "17000000";
    assert NatToString(170000000) == "170000000";
    assert NatToString(1700000000) == "1700000000";
    assert NatToString(17000000000) == "17000000000";
    assert NatToString(170000000000) == "170000000000";
    assert NatToString(1700000000000) == "1700000000000";
  }

  /** The sequence part of the 42nd order. */
  lemma SuffixDigits()
    ensures SequenceSuffix(41) == "0042"
  {
    assert NatToString(42) == "42";
  }

  /** Example: at instant 1700000000000 the 42nd order is `ORD-1700000000000-0042`. */
  lemma OrderNumberExample()
    ensures SequenceSuffix(41) == "0042"
    ensures GeneratedOrderNumber(Some(41), 1700000000000) == "ORD-1700000000000-0042"
  {
    SuffixDigits();
    TimestampDigits();
    var ts := NatToString(1700000000000);
    var suffix := SequenceSuffix(41);
    assert GeneratedOrderNumber(Some(41), 1700000000000) == "ORD-" + ts + "-" + suffix;
  }

  /** A generated order number is never empty, so saving again never regenerates it. */
  lemma GeneratedOrderNumberNonEmpty(count: Option<nat>, now: nat)
    ensures GeneratedOrderNumber(count, now) != ""
    ensures GeneratedOrderNumber(count, now)[..4] == "ORD-"
  {
  }

  /** A Mongoose order document, whose pre-save hook fills in the order number. */
  class OrderDocument {
    var data: Order

    constructor (o: Order)
      ensures data == o
    {
      data := o;
    }

    /** The pre-save hook: only an empty order number is filled in; a set one is kept. */
    method PreSave(count: Option<nat>, now: nat)
      modifies this
      ensures old(data).orderNumber == "" ==>
        data == old(data).(orderNumber := GeneratedOrderNumber(count, now))
      ensures old(data).orderNumber != "" ==> data == old(data)
    {
      if data.orderNumber == "" {
        data := data.(orderNumber := GeneratedOrderNumber(count, now));
      }
    }
  }
}

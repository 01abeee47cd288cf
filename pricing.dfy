/**
 * Checkout pricing: resolving each requested line against the live menu, the running
 * subtotal, the 7% sales tax rounded to cents, and the total.
 */
module Pricing {
  import opened Base
  import Money
  import opened Text
  import opened MenuModel
  import opened OrderModel

  /** One entry of the request's `items`: the item id, the quantity and an optional label. */
  datatype LineRequest = LineRequest(menuItemId: nat, quantity: int, name: Option<string>)

  /** The priced lines and their running subtotal, in cents. */
  datatype Cart = Cart(lines: seq<OrderLine>, subtotal: int)

  const TaxPercent: int := 7

  /** `Math.round(subtotal * 0.07 * 100) / 100` in cents: 7% of the subtotal, halves up. */
  function Tax(subtotal: int): (t: int)
    ensures 100 * t - 50 <= TaxPercent * subtotal < 100 * t + 50
  {
    Money.RoundToCents(TaxPercent * subtotal)
  }

  /** Tax on a non-negative subtotal is non-negative and never exceeds the subtotal. */
  lemma TaxBounds(subtotal: int)
    requires subtotal >= 0
    ensures 0 <= Tax(subtotal) <= subtotal
  {
  }

  /** The sum of the line subtotals. */
  function SumSubtotals(lines: seq<OrderLine>): int {
    if lines == [] then 0 else SumSubtotals(lines[..|lines| - 1]) + lines[|lines| - 1].subtotal
  }

  lemma SumSubtotalsAppend(lines: seq<OrderLine>, l: OrderLine)
    ensures SumSubtotals(lines + [l]) == SumSubtotals(lines) + l.subtotal
  {
    assert (lines + [l])[..|lines|] == lines;
  }

  /** Lines with non-negative subtotals sum to a non-negative subtotal. */
  lemma {:induction false} SumSubtotalsNonNegative(lines: seq<OrderLine>)
    requires forall i :: 0 <= i < |lines| ==> lines[i].subtotal >= 0
    ensures SumSubtotals(lines) >= 0
  {
    if lines != [] {
      SumSubtotalsNonNegative(lines[..|lines| - 1]);
    }
  }

  /** The invariants every order created by checkout keeps for the rest of its life. */
  ghost predicate ConsistentTotals(o: Order) {
    && (forall i :: 0 <= i < |o.items| ==> o.items[i].subtotal == o.items[i].price * o.items[i].quantity)
    && o.subtotal == SumSubtotals(o.items)
    && o.tax == Tax(o.subtotal)
    && o.total == o.subtotal + o.tax
  }

  /** The item exists and has not been soft-deleted. */
  predicate Orderable(menu: seq<MenuItem>, id: nat) {
    id < |menu| && menu[id].isAvailable
  }

  /** The snapshot of one line: the item's name, its current price, price times quantity. */
  function PricedLine(menu: seq<MenuItem>, r: LineRequest, happy: bool): (l: OrderLine)
    requires Orderable(menu, r.menuItemId)
    ensures l.menuItemId == r.menuItemId && l.quantity == r.quantity
    ensures l.name == menu[r.menuItemId].name
    ensures l.price == CurrentPrice(menu[r.menuItemId], happy)
    ensures l.subtotal == l.price * l.quantity
  {
    var m := menu[r.menuItemId];
    var price := CurrentPrice(m, happy);
    OrderLine(r.menuItemId, m.name, r.quantity, price, price * r.quantity)
  }

  /** The rejection names the line by its label when it has one, else by its id. */
  function UnavailableMessage(r: LineRequest): string {
    "Menu item " + (if r.name.Some? && r.name.value != "" then r.name.value else NatToString(r.menuItemId))
    + " is not available"
  }

  /**
   * The checkout loop: look each requested item up, stop at the first one that is missing
   * or unavailable, otherwise snapshot the line and add its subtotal.
   */
  method PriceItems(menu: seq<MenuItem>, reqs: seq<LineRequest>, happy: bool) returns (r: Response<Cart>)
    ensures r.Err? <==> exists i :: 0 <= i < |reqs| && !Orderable(menu, reqs[i].menuItemId)
    ensures r.Err? ==>
      && r.status == BadRequest
      && exists i :: 0 <= i < |reqs|
           && !Orderable(menu, reqs[i].menuItemId)
           && (forall j :: 0 <= j < i ==> Orderable(menu, reqs[j].menuItemId))
           && r.message == UnavailableMessage(reqs[i])
    ensures r.Ok? ==>
      && |r.value.lines| == |reqs|
      && (forall i :: 0 <= i < |reqs| ==> r.value.lines[i] == PricedLine(menu, reqs[i], happy))
      && r.value.subtotal == SumSubtotals(r.value.lines)
  {
    var subtotal := 0;
    var lines: seq<OrderLine> := [];
    var i := 0;
    while i < |reqs|
      invariant 0 <= i <= |reqs| && |lines| == i
      invariant PricedPrefix(menu, reqs, happy, lines)
      invariant subtotal == SumSubtotals(lines)
    {
      var item := reqs[i];
      if item.menuItemId >= |menu| || !menu[item.menuItemId].isAvailable {
        return Err(BadRequest, UnavailableMessage(item));
      }
      var menuItem := menu[item.menuItemId];
      var price := if happy && HasHappyPrice(menuItem) then menuItem.happyHourPrice.value else menuItem.price;
      var itemSubtotal := price * item.quantity;
      var line := OrderLine(item.menuItemId, menuItem.name, item.quantity, price, itemSubtotal);
      assert line == PricedLine(menu, item, happy);
      PricedPrefixAppend(menu, reqs, happy, lines);
      SumSubtotalsAppend(lines, line);
      subtotal := subtotal + itemSubtotal;
      lines := lines + [line];
      i := i + 1;
    }
    return Ok(Cart(lines, subtotal));
  }

  /** The lines priced so far: one snapshot per request, in order, each of an orderable item. */
  ghost predicate PricedPrefix(menu: seq<MenuItem>, reqs: seq<LineRequest>, happy: bool, lines: seq<OrderLine>) {
    && |lines| <= |reqs|
    && forall j :: 0 <= j < |lines| ==> Orderable(menu, reqs[j].menuItemId) && lines[j] == PricedLine(menu, reqs[j], happy)
  }

  /** Pricing the next orderable request extends the priced prefix. */
  lemma PricedPrefixAppend(menu: seq<MenuItem>, reqs: seq<LineRequest>, happy: bool, lines: seq<OrderLine>)
    requires PricedPrefix(menu, reqs, happy, lines) && |lines| < |reqs| && Orderable(menu, reqs[|lines|].menuItemId)
    ensures PricedPrefix(menu, reqs, happy, lines + [PricedLine(menu, reqs[|lines|], happy)])
  {
  }

  /** Priced lines with non-negative prices and positive quantities have a non-negative subtotal. */
  lemma CartSubtotalNonNegative(menu: seq<MenuItem>, reqs: seq<LineRequest>, happy: bool, lines: seq<OrderLine>)
    requires forall i :: 0 <= i < |menu| ==> ValidMenuItem(menu[i])
    requires forall i :: 0 <= i < |reqs| ==> Orderable(menu, reqs[i].menuItemId) && reqs[i].quantity >= 1
    requires |lines| == |reqs| && forall i :: 0 <= i < |reqs| ==> lines[i] == PricedLine(menu, reqs[i], happy)
    ensures SumSubtotals(lines) >= 0
  {
    forall i | 0 <= i < |lines| ensures lines[i].subtotal >= 0 {
      var m := menu[reqs[i].menuItemId];
      CurrentPriceNonNegative(m, happy);
      ProductNonNegative(lines[i].price, lines[i].quantity);
    }
    SumSubtotalsNonNegative(lines);
  }

  lemma ProductNonNegative(a: int, b: int)
    requires a >= 0 && b >= 0
    ensures a * b >= 0
  {
  }

  /** Totals priced this way are all non-negative when the subtotal is. */
  lemma TotalsNonNegative(subtotal: int)
    requires subtotal >= 0
    ensures Tax(subtotal) >= 0 && subtotal + Tax(subtotal) >= subtotal
  {
  }

  /**
   * A $10.00 item with an $8.00 happy-hour price, two of them during happy hour:
   * subtotal $16.00, tax $1.12, total $17.12; outside happy hour $20.00, $1.40, $21.40.
   */
  lemma CheckoutExample(m: MenuItem)
    requires m.price == 1000 && m.happyHourPrice == Some(800) && m.isAvailable
    ensures var r := LineRequest(0, 2, None);
      && PricedLine([m], r, true).subtotal == 1600
      && SumSubtotals([PricedLine([m], r, true)]) == 1600
      && Tax(1600) == 112 && 1600 + Tax(1600) == 1712
      && PricedLine([m], r, false).subtotal == 2000 && Tax(2000) == 140
  {
    assert [PricedLine([m], LineRequest(0, 2, None), true)][..0] == [];
  }

  /** A happy-hour price of zero is not used: the line is charged the regular price. */
  lemma ZeroHappyHourPriceFallsBack(m: MenuItem, r: LineRequest)
    requires m.happyHourPrice == Some(0) && m.isAvailable && r.menuItemId == 0
    ensures PricedLine([m], r, true).price == m.price
  {
  }
}

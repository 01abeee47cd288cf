/**
 * The admin statistics routes: the order counts by status and by payment status, the revenue
 * over paid orders and its average, and the dashboard with its popular-items tally. Both
 * routes sit behind `protect` followed by `authorize("admin")`.
 */
module AdminRoutes {
  import opened Base
  import opened Collections
  import opened Collaborators
  import opened HappyHour
  import opened MenuModel
  import opened OrderModel
  import opened AuthMiddleware
  import opened Db

  // ---------------------------------------------------------------------------------------
  // Counting and revenue

  function StatusIs(s: OrderStatus): Order -> bool {
    (o: Order) => o.status == s
  }

  function PaymentIs(p: PaymentStatus): Order -> bool {
    (o: Order) => o.paymentStatus == p
  }

  function CountStatus(orders: seq<Order>, s: OrderStatus): nat {
    |Filter(orders, StatusIs(s))|
  }

  function CountPayment(orders: seq<Order>, p: PaymentStatus): nat {
    |Filter(orders, PaymentIs(p))|
  }

  datatype StatusCounts = StatusCounts(
    pending: nat, confirmed: nat, preparing: nat, ready: nat, completed: nat, cancelled: nat)

  datatype PaymentCounts = PaymentCounts(pending: nat, paid: nat, failed: nat, refunded: nat)

  /** `byStatus`: one count per order status. */
  function CountsByStatus(orders: seq<Order>): StatusCounts {
    StatusCounts(CountStatus(orders, Pending), CountStatus(orders, Confirmed), CountStatus(orders, Preparing),
                 CountStatus(orders, Ready), CountStatus(orders, Completed), CountStatus(orders, Cancelled))
  }

  /** `byPaymentStatus`: one count per payment status. */
  function CountsByPayment(orders: seq<Order>): PaymentCounts {
    PaymentCounts(CountPayment(orders, PaymentPending), CountPayment(orders, Paid),
                  CountPayment(orders, PaymentFailed), CountPayment(orders, Refunded))
  }

  /** Every order has exactly one of the six statuses, so the counts add up to the total. */
  lemma {:induction false} StatusCountsSum(orders: seq<Order>)
    ensures var c := CountsByStatus(orders);
      c.pending + c.confirmed + c.preparing + c.ready + c.completed + c.cancelled == |orders|
  {
    if orders != [] {
      StatusCountsSum(orders[..|orders| - 1]);
    }
  }

  /** Likewise for the four payment statuses. */
  lemma {:induction false} PaymentCountsSum(orders: seq<Order>)
    ensures var c := CountsByPayment(orders); c.pending + c.paid + c.failed + c.refunded == |orders|
  {
    if orders != [] {
      PaymentCountsSum(orders[..|orders| - 1]);
    }
  }

  /** The `reduce` that sums order totals, in cents. */
  function SumTotals(orders: seq<Order>): int {
    if orders == [] then 0 else SumTotals(orders[..|orders| - 1]) + orders[|orders| - 1].total
  }

  /** The revenue: the totals of the paid orders only. */
  function Revenue(orders: seq<Order>): int {
    SumTotals(Filter(orders, PaymentIs(Paid)))
  }

  /** A reference for the revenue: each order contributes its total when paid and nothing otherwise. */
  function PaidContribution(orders: seq<Order>): int {
    if orders == [] then 0
    else PaidContribution(orders[..|orders| - 1])
         + (if orders[|orders| - 1].paymentStatus == Paid then orders[|orders| - 1].total else 0)
  }

  lemma {:induction false} RevenueIsPaidContribution(orders: seq<Order>)
    ensures Revenue(orders) == PaidContribution(orders)
  {
    if orders != [] {
      var init := orders[..|orders| - 1];
      RevenueIsPaidContribution(init);
      var f := Filter(init, PaymentIs(Paid));
      if orders[|orders| - 1].paymentStatus == Paid {
        assert (f + [orders[|orders| - 1]])[..|f|] == f;
      }
    }
  }

  /** Unpaid, failed and refunded orders never move the revenue. */
  lemma RevenueIgnoresUnpaid(orders: seq<Order>, o: Order)
    requires o.paymentStatus != Paid
    ensures Revenue(orders + [o]) == Revenue(orders)
  {
    RevenueIsPaidContribution(orders + [o]);
    RevenueIsPaidContribution(orders);
    assert (orders + [o])[..|orders|] == orders;
  }

  /** With every paid total between 0 and `bound`, the revenue is between 0 and `paid · bound`. */
  lemma {:induction false} RevenueBounds(orders: seq<Order>, bound: int)
    requires forall i :: 0 <= i < |orders| && orders[i].paymentStatus == Paid ==> 0 <= orders[i].total <= bound
    ensures 0 <= Revenue(orders) <= CountPayment(orders, Paid) * bound
  {
    RevenueIsPaidContribution(orders);
    PaidContributionBounds(orders, bound);
    TimesIsProduct(CountPayment(orders, Paid), bound);
  }

  /** `c · b` as repeated addition, which keeps the induction above linear. */
  function Times(c: nat, b: int): int {
    if c == 0 then 0 else Times(c - 1, b) + b
  }

  lemma {:induction false} TimesIsProduct(c: nat, b: int)
    ensures Times(c, b) == c * b
  {
    if c > 0 {
      TimesIsProduct(c - 1, b);
    }
  }

  lemma {:induction false} PaidContributionBounds(orders: seq<Order>, bound: int)
    requires forall i :: 0 <= i < |orders| && orders[i].paymentStatus == Paid ==> 0 <= orders[i].total <= bound
    ensures 0 <= PaidContribution(orders) <= Times(CountPayment(orders, Paid), bound)
  {
    if orders != [] {
      var init := orders[..|orders| - 1];
      assert forall i :: 0 <= i < |init| ==> init[i] == orders[i];
      PaidContributionBounds(init, bound);
      var c := CountPayment(init, Paid);
      if orders[|orders| - 1].paymentStatus == Paid {
        assert CountPayment(orders, Paid) == c + 1;
      } else {
        assert CountPayment(orders, Paid) == c;
      }
    }
  }

  /** `averageOrderValue`: 0 without paid orders, else the revenue divided by their number. */
  function AverageOrderValue(revenue: int, paidCount: nat): (a: real)
    ensures paidCount == 0 ==> a == 0.0
    ensures paidCount > 0 ==> a * (paidCount as real) == revenue as real
  {
    if paidCount > 0 then (revenue as real) / (paidCount as real) else 0.0
  }

  /** The average lies between 0 and the largest paid total. */
  lemma AverageBounds(orders: seq<Order>, bound: int)
    requires forall i :: 0 <= i < |orders| && orders[i].paymentStatus == Paid ==> 0 <= orders[i].total <= bound
    ensures var a := AverageOrderValue(Revenue(orders), CountPayment(orders, Paid));
      0.0 <= a && (CountPayment(orders, Paid) > 0 ==> a <= bound as real)
  {
    var n := CountPayment(orders, Paid);
    RevenueBounds(orders, bound);
    if n > 0 {
      TimesIsProduct(n, bound);
      RatioBounds(Revenue(orders), n, bound);
    }
  }

  /** `0 <= r <= n · b` with `n > 0` puts `r / n` between 0 and `b`. */
  lemma RatioBounds(r: int, n: nat, b: int)
    requires n > 0 && 0 <= r <= n * b
    ensures 0.0 <= (r as real) / (n as real) <= b as real
  {
    var a := (r as real) / (n as real);
    assert a * (n as real) == r as real;
    assert (n * b) as real == (n as real) * (b as real);
  }

  // ---------------------------------------------------------------------------------------
  // GET /orders/stats

  /** `createdAt` between the two bounds, both inclusive. */
  function CreatedBetween(start: int, end: int): Order -> bool {
    (o: Order) => start <= o.createdAt <= end
  }

  /** The query: a date range only when both bounds are given, otherwise every order. */
  function Selected(orders: seq<Order>, startDate: Option<int>, endDate: Option<int>): (r: seq<Order>)
    ensures startDate.None? || endDate.None? ==> r == orders
    ensures startDate.Some? && endDate.Some? ==>
      (forall i :: 0 <= i < |r| ==> r[i] in orders && startDate.value <= r[i].createdAt <= endDate.value)
      && (forall i :: 0 <= i < |orders| && startDate.value <= orders[i].createdAt <= endDate.value ==> orders[i] in r)
  {
    if startDate.Some? && endDate.Some? then Filter(orders, CreatedBetween(startDate.value, endDate.value))
    else orders
  }

  datatype Stats = Stats(
    total: nat, byStatus: StatusCounts, byPaymentStatus: PaymentCounts, totalRevenue: int, averageOrderValue: real)

  /** The response of the stats route over the selected orders. */
  ghost predicate IsStats(s: Stats, orders: seq<Order>, startDate: Option<int>, endDate: Option<int>) {
    var sel := Selected(orders, startDate, endDate);
    && s.total == |sel|
    && s.byStatus == CountsByStatus(sel)
    && s.byPaymentStatus == CountsByPayment(sel)
    && s.totalRevenue == Revenue(sel)
    && s.averageOrderValue == AverageOrderValue(Revenue(sel), CountPayment(sel, Paid))
  }

  /**
   * The stats handler: the counts and revenue are computed with the average at 0, which is
   * then replaced when there is at least one paid order.
   */
  method OrderStats(orders: seq<Order>, startDate: Option<int>, endDate: Option<int>) returns (s: Stats)
    ensures IsStats(s, orders, startDate, endDate)
    ensures s.byStatus.pending + s.byStatus.confirmed + s.byStatus.preparing + s.byStatus.ready
            + s.byStatus.completed + s.byStatus.cancelled == s.total
    ensures s.byPaymentStatus.pending + s.byPaymentStatus.paid + s.byPaymentStatus.failed
            + s.byPaymentStatus.refunded == s.total
  {
    var sel := if startDate.Some? && endDate.Some?
      then Filter(orders, CreatedBetween(startDate.value, endDate.value)) else orders;
    s := Stats(|sel|, CountsByStatus(sel), CountsByPayment(sel), Revenue(sel), 0.0);
    var paidOrders := Filter(sel, PaymentIs(Paid));
    if |paidOrders| > 0 {
      s := s.(averageOrderValue := (s.totalRevenue as real) / (|paidOrders| as real));
    }
    StatusCountsSum(sel);
    PaymentCountsSum(sel);
  }

  /** GET /orders/stats: the admin gate, then the handler. */
  method StatsRoute(db: Store, header: Option<string>, crypto: Crypto, startDate: Option<int>, endDate: Option<int>)
    returns (r: Response<Stats>)
    ensures Gate(db.users, header, crypto, AdminOnly).Reject? ==>
      r == Err(Gate(db.users, header, crypto, AdminOnly).status, Gate(db.users, header, crypto, AdminOnly).message)
    ensures Gate(db.users, header, crypto, AdminOnly).Proceed? ==> r.Ok? && IsStats(r.value, db.orders, startDate, endDate)
  {
    var g := Gate(db.users, header, crypto, AdminOnly);
    if g.Reject? {
      return Err(g.status, g.message);
    }
    var s := OrderStats(db.orders, startDate, endDate);
    r := Ok(s);
  }

  // ---------------------------------------------------------------------------------------
  // The popular-items tally

  /** Every line of the given orders, order by order. */
  function AllLines(orders: seq<Order>): seq<OrderLine> {
    if orders == [] then [] else AllLines(orders[..|orders| - 1]) + orders[|orders| - 1].items
  }

  /** `itemCounts[name] = (itemCounts[name] || 0) + quantity`, applied line by line. */
  function TallyMap(lines: seq<OrderLine>): map<string, int> {
    if lines == [] then map[]
    else
      var m := TallyMap(lines[..|lines| - 1]);
      var l := lines[|lines| - 1];
      m[l.name := (if l.name in m then m[l.name] else 0) + l.quantity]
  }

  /** The keys of the tally in the order they were first assigned, the order `Object.entries` lists them in. */
  function TallyNames(lines: seq<OrderLine>): seq<string> {
    if lines == [] then []
    else
      var ns := TallyNames(lines[..|lines| - 1]);
      if lines[|lines| - 1].name in ns then ns else ns + [lines[|lines| - 1].name]
  }

  /** A reference for an item's count: the quantities of the lines with that name, added up. */
  function Quantity(lines: seq<OrderLine>, name: string): int {
    if lines == [] then 0
    else Quantity(lines[..|lines| - 1], name)
         + (if lines[|lines| - 1].name == name then lines[|lines| - 1].quantity else 0)
  }

  /** The key order holds exactly the names that occur. */
  lemma {:induction false} TallyNamesOccur(lines: seq<OrderLine>, n: string)
    ensures n in TallyNames(lines) <==> exists k :: 0 <= k < |lines| && lines[k].name == n
  {
    if lines != [] {
      var init := lines[..|lines| - 1];
      TallyNamesOccur(init, n);
      if n in TallyNames(lines) {
        if n in TallyNames(init) {
          var k :| 0 <= k < |init| && init[k].name == n;
          assert lines[k] == init[k];
        }
      }
      if exists k :: 0 <= k < |lines| && lines[k].name == n {
        var k :| 0 <= k < |lines| && lines[k].name == n;
        if k < |init| {
          assert init[k] == lines[k];
        }
      }
    }
  }

  /** The tally has an entry for exactly the names in the key order. */
  lemma {:induction false} TallyDomain(lines: seq<OrderLine>, n: string)
    ensures n in TallyMap(lines) <==> n in TallyNames(lines)
  {
    if lines != [] {
      TallyDomain(lines[..|lines| - 1], n);
    }
  }

  /** Each entry holds the sum of that name's quantities. */
  lemma {:induction false} TallyValue(lines: seq<OrderLine>, n: string)
    requires n in TallyMap(lines)
    ensures TallyMap(lines)[n] == Quantity(lines, n)
  {
    var init := lines[..|lines| - 1];
    var l := lines[|lines| - 1];
    if n in TallyMap(init) {
      TallyValue(init, n);
    } else if l.name == n {
      TallyNamesOccur(init, n);
      TallyDomain(init, n);
      QuantityAbsent(init, n);
    }
  }

  /** The key order lists no name twice. */
  lemma {:induction false} TallyNamesDistinct(lines: seq<OrderLine>)
    ensures forall i, j :: 0 <= i < j < |TallyNames(lines)| ==> TallyNames(lines)[i] != TallyNames(lines)[j]
  {
    if lines != [] {
      TallyNamesDistinct(lines[..|lines| - 1]);
    }
  }

  /**
   * The tally has an entry for exactly the names that occur, each holding the sum of that
   * name's quantities; the key order lists each of those names once.
   */
  lemma TallyCounts(lines: seq<OrderLine>)
    ensures forall n :: n in TallyMap(lines) <==> n in TallyNames(lines)
    ensures forall n :: n in TallyNames(lines) <==> exists k :: 0 <= k < |lines| && lines[k].name == n
    ensures forall n :: n in TallyMap(lines) ==> TallyMap(lines)[n] == Quantity(lines, n)
    ensures forall i, j :: 0 <= i < j < |TallyNames(lines)| ==> TallyNames(lines)[i] != TallyNames(lines)[j]
  {
    forall n ensures n in TallyMap(lines) <==> n in TallyNames(lines) {
      TallyDomain(lines, n);
    }
    forall n ensures n in TallyNames(lines) <==> exists k :: 0 <= k < |lines| && lines[k].name == n {
      TallyNamesOccur(lines, n);
    }
    forall n | n in TallyMap(lines) ensures TallyMap(lines)[n] == Quantity(lines, n) {
      TallyValue(lines, n);
    }
    TallyNamesDistinct(lines);
  }

  /** A name that never occurs has a count of 0. */
  lemma {:induction false} QuantityAbsent(lines: seq<OrderLine>, name: string)
    requires forall k :: 0 <= k < |lines| ==> lines[k].name != name
    ensures Quantity(lines, name) == 0
  {
    if lines != [] {
      var init := lines[..|lines| - 1];
      assert forall k :: 0 <= k < |init| ==> init[k] == lines[k];
      QuantityAbsent(init, name);
    }
  }

  /** The keys and counts as `Object.entries` pairs them, in key order. */
  function TallyEntries(names: seq<string>, counts: map<string, int>): (r: seq<PopularItem>)
    requires forall k :: 0 <= k < |names| ==> names[k] in counts
    ensures |r| == |names|
    ensures forall k :: 0 <= k < |r| ==> r[k] == PopularItem(names[k], counts[names[k]])
  {
    if names == [] then []
    else TallyEntries(names[..|names| - 1], counts) + [PopularItem(names[|names| - 1], counts[names[|names| - 1]])]
  }

  /** The tally of a list of lines as entries. */
  function Tally(lines: seq<OrderLine>): seq<PopularItem> {
    TallyCounts(lines);
    TallyEntries(TallyNames(lines), TallyMap(lines))
  }

  /** One popular item: a name and its quantity over the recent orders. */
  datatype PopularItem = PopularItem(name: string, count: int)

  /**
   * The nested loops of the dashboard: every line of every recent order adds its quantity to
   * the entry for its name, creating the entry (and so its place in the key order) when new.
   */
  method TallyItems(recent: seq<Order>) returns (counts: map<string, int>, names: seq<string>)
    ensures counts == TallyMap(AllLines(recent)) && names == TallyNames(AllLines(recent))
  {
    counts, names := map[], [];
    var i := 0;
    while i < |recent|
      invariant 0 <= i <= |recent|
      invariant counts == TallyMap(AllLines(recent[..i])) && names == TallyNames(AllLines(recent[..i]))
    {
      counts, names := TallyLines(counts, names, recent[i].items, AllLines(recent[..i]));
      assert recent[..i + 1][..i] == recent[..i];
      i := i + 1;
    }
    assert recent[..|recent|] == recent;
  }

  /** The inner loop: the lines of one order added to the tally of the lines before them. */
  method TallyLines(counts0: map<string, int>, names0: seq<string>, items: seq<OrderLine>, ghost before: seq<OrderLine>)
    returns (counts: map<string, int>, names: seq<string>)
    requires counts0 == TallyMap(before) && names0 == TallyNames(before)
    ensures counts == TallyMap(before + items) && names == TallyNames(before + items)
  {
    counts, names := counts0, names0;
    ghost var seen := before;
    var j := 0;
    assert before + items[..0] == before;
    while j < |items|
      invariant 0 <= j <= |items| && seen == before + items[..j]
      invariant counts == TallyMap(seen) && names == TallyNames(seen)
    {
      var item := items[j];
      TallyAppend(seen, item);
      counts := counts[item.name := (if item.name in counts then counts[item.name] else 0) + item.quantity];
      if item.name !in names {
        names := names + [item.name];
      }
      assert items[..j + 1] == items[..j] + [item];
      seen := seen + [item];
      j := j + 1;
    }
    assert items[..|items|] == items;
  }

  /** One more line updates the tally at its own name only. */
  lemma TallyAppend(lines: seq<OrderLine>, l: OrderLine)
    ensures var m := TallyMap(lines);
      TallyMap(lines + [l]) == m[l.name := (if l.name in m then m[l.name] else 0) + l.quantity]
    ensures TallyNames(lines + [l]) ==
      if l.name in TallyNames(lines) then TallyNames(lines) else TallyNames(lines) + [l.name]
  {
    assert (lines + [l])[..|lines|] == lines;
  }

  /** The comparator `(a, b) => b.count - a.count`: larger counts first. */
  predicate ByCountDesc(a: PopularItem, b: PopularItem) {
    a.count >= b.count
  }

  lemma ByCountDescTotalPreorder()
    ensures TotalPreorder(ByCountDesc)
  {
  }

  const PopularLimit: nat := 5

  /** Sort by count, largest first, and keep the first five. */
  function Popular(entries: seq<PopularItem>): seq<PopularItem> {
    var sorted := Sort(entries, ByCountDesc);
    sorted[..if |sorted| < PopularLimit then |sorted| else PopularLimit]
  }

  /** A prefix takes no element more often than the whole sequence has it. */
  lemma PrefixSubMultiset<T>(s: seq<T>, n: nat)
    requires n <= |s|
    ensures multiset(s[..n]) <= multiset(s)
  {
    assert s == s[..n] + s[n..];
  }

  /**
   * At most five items, largest count first, drawn from the tally without repetition (as a
   * sub-multiset of the entries); every entry left out counts no more than the last one kept.
   */
  lemma PopularTopFive(entries: seq<PopularItem>)
    ensures var r := Popular(entries);
      && |r| == (if |entries| < PopularLimit then |entries| else PopularLimit)
      && (forall i, j :: 0 <= i < j < |r| ==> r[i].count >= r[j].count)
      && (forall i :: 0 <= i < |r| ==> r[i] in entries)
      && multiset(r) <= multiset(entries)
      && (forall e :: e in entries && e !in r ==> r != [] && e.count <= r[|r| - 1].count)
  {
    var sorted := Sort(entries, ByCountDesc);
    var r := Popular(entries);
    PrefixSubMultiset(sorted, |r|);
    ByCountDescTotalPreorder();
    SortSorted(entries, ByCountDesc);
    forall i | 0 <= i < |r| ensures r[i] in entries {
      PermutationMember(sorted, entries, i);
    }
    forall e | e in entries && e !in r ensures r != [] && e.count <= r[|r| - 1].count {
      assert e in multiset(sorted);
      var k :| 0 <= k < |sorted| && sorted[k] == e;
      assert k >= |r|;
      assert ByCountDesc(sorted[|r| - 1], sorted[k]);
    }
  }

  /** Each popular item carries its name's total quantity over the given lines. */
  lemma PopularCounts(lines: seq<OrderLine>)
    ensures forall i :: 0 <= i < |Popular(Tally(lines))| ==>
      var p := Popular(Tally(lines))[i];
      (exists k :: 0 <= k < |lines| && lines[k].name == p.name) && p.count == Quantity(lines, p.name)
  {
    var entries := Tally(lines);
    TallyCounts(lines);
    PopularTopFive(entries);
    forall i | 0 <= i < |Popular(entries)|
      ensures var p := Popular(entries)[i];
        (exists k :: 0 <= k < |lines| && lines[k].name == p.name) && p.count == Quantity(lines, p.name)
    {
      var p := Popular(entries)[i];
      var k :| 0 <= k < |entries| && entries[k] == p;
      assert p.name == TallyNames(lines)[k];
    }
  }

  // ---------------------------------------------------------------------------------------
  // GET /dashboard

  /** Orders created at or after `since`. */
  function CreatedSince(orders: seq<Order>, since: int): seq<Order> {
    Filter(orders, (o: Order) => o.createdAt >= since)
  }

  datatype Dashboard = Dashboard(
    todayOrders: nat, todayRevenue: int, pendingOrders: nat, popularItems: seq<PopularItem>,
    menuTotal: nat, menuAvailable: nat, isOpen: bool, isHappyHour: bool)

  /**
   * The dashboard: today's orders and their paid revenue (from `midnight` on), the pending
   * orders of all time, the five most ordered items since `monthAgo`, the menu size and
   * available count, and the business status at `hour`.
   */
  ghost predicate IsDashboard(d: Dashboard, menu: seq<MenuItem>, orders: seq<Order>, midnight: int, monthAgo: int,
                              hour: int, cfg: Config) {
    && d.todayOrders == |CreatedSince(orders, midnight)|
    && d.todayRevenue == Revenue(CreatedSince(orders, midnight))
    && d.pendingOrders == CountStatus(orders, Pending)
    && d.popularItems == Popular(Tally(AllLines(CreatedSince(orders, monthAgo))))
    && d.menuTotal == |menu|
    && d.menuAvailable == |Filter(menu, (m: MenuItem) => m.isAvailable)|
    && d.isOpen == IsBusinessHours(hour, cfg)
    && d.isHappyHour == IsHappyHour(hour, cfg)
  }

  /** The dashboard handler: the filters and counts, and the tally built by the nested loops. */
  method DashboardHandler(menu: seq<MenuItem>, orders: seq<Order>, midnight: int, monthAgo: int, hour: int, cfg: Config)
    returns (d: Dashboard)
    ensures IsDashboard(d, menu, orders, midnight, monthAgo, hour, cfg)
  {
    var todayOrders := CreatedSince(orders, midnight);
    var todayRevenue := Revenue(todayOrders);
    var pending := CountStatus(orders, Pending);
    var recent := CreatedSince(orders, monthAgo);
    var counts, names := TallyItems(recent);
    TallyCounts(AllLines(recent));
    var popular := Popular(TallyEntries(names, counts));
    d := Dashboard(|todayOrders|, todayRevenue, pending, popular, |menu|, |Filter(menu, (m: MenuItem) => m.isAvailable)|,
                   IsBusinessHours(hour, cfg), IsHappyHour(hour, cfg));
  }

  /** GET /dashboard: the admin gate, then the handler. */
  method DashboardRoute(db: Store, header: Option<string>, crypto: Crypto, midnight: int, monthAgo: int,
                        hour: int, cfg: Config) returns (r: Response<Dashboard>)
    ensures Gate(db.users, header, crypto, AdminOnly).Reject? ==>
      r == Err(Gate(db.users, header, crypto, AdminOnly).status, Gate(db.users, header, crypto, AdminOnly).message)
    ensures Gate(db.users, header, crypto, AdminOnly).Proceed? ==>
      r.Ok? && IsDashboard(r.value, db.menu, db.orders, midnight, monthAgo, hour, cfg)
  {
    var g := Gate(db.users, header, crypto, AdminOnly);
    if g.Reject? {
      return Err(g.status, g.message);
    }
    var d := DashboardHandler(db.menu, db.orders, midnight, monthAgo, hour, cfg);
    r := Ok(d);
  }

  /** Today's revenue counts only today's paid orders. */
  lemma TodayRevenuePaidOnly(orders: seq<Order>, midnight: int)
    ensures Revenue(CreatedSince(orders, midnight)) == PaidContribution(CreatedSince(orders, midnight))
  {
    RevenueIsPaidContribution(CreatedSince(orders, midnight));
  }
}

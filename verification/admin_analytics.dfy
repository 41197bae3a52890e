/** The metrics of the admin analytics screen, computed from the rows the
    screen reads: totals, average and growth, sales per product and the five
    best sellers, revenue per month for the last six months, and the share
    of each order status. Each query result is a parameter; a null result is
    `None`. The calendar (period boundaries, parsing of timestamps, month
    names) is given from outside as well. */
module AdminAnalytics {
  import opened Types
  import opened Seqs

  // ------------------------------------------------------------------ totals

  /** `orders.reduce((sum, o) => sum + o.total_amount, 0)`. */
  function SumAmounts(orders: seq<Order>): real
    decreases |orders|
  {
    if orders == [] then 0.0 else SumAmounts(orders[..|orders| - 1]) + orders[|orders| - 1].totalAmount
  }

  /** The sum over two lists of orders is the sum of the two sums. */
  lemma {:induction false} SumAmountsAppend(a: seq<Order>, b: seq<Order>)
    ensures SumAmounts(a + b) == SumAmounts(a) + SumAmounts(b)
    decreases |b|
  {
    if b == [] {
      assert a + b == a;
    } else {
      var b' := b[..|b| - 1];
      assert (a + b)[..|a + b| - 1] == a + b';
      assert (a + b)[|a + b| - 1] == b[|b| - 1];
      SumAmountsAppend(a, b');
    }
  }

  /** Orders with non-negative amounts have a non-negative sum, no larger
      than the count times the largest amount. */
  lemma {:induction false} SumAmountsBounds(orders: seq<Order>, max: real)
    requires forall i :: 0 <= i < |orders| ==> 0.0 <= orders[i].totalAmount <= max
    ensures 0.0 <= SumAmounts(orders) <= |orders| as real * max
    decreases |orders|
  {
    if orders != [] {
      SumAmountsBounds(orders[..|orders| - 1], max);
    }
  }

  /** Revenue of the period; a null result counts as no revenue. */
  function TotalRevenue(orders: Option<seq<Order>>): (r: real)
    ensures orders.None? ==> r == 0.0
    ensures orders.Some? && orders.value == [] ==> r == 0.0
    ensures orders.Some? ==> r == SumAmounts(orders.value)
  {
    if orders.Some? then SumAmounts(orders.value) else 0.0
  }

  /** Number of orders of the period; a null result counts as none. */
  function TotalOrders(orders: Option<seq<Order>>): (n: nat)
    ensures orders.None? ==> n == 0
    ensures orders.Some? ==> n == |orders.value|
  {
    if orders.Some? then |orders.value| else 0
  }

  /** Revenue per order; no orders means an average of 0. */
  function AverageOrderValue(revenue: real, count: nat): (avg: real)
    ensures count > 0 ==> avg * count as real == revenue
    ensures count == 0 ==> avg == 0.0
  {
    if count > 0 then revenue / count as real else 0.0
  }

  /** Percentage change from `previous` to `current`; 0 when there is no
      positive previous value to compare with. */
  function Growth(current: real, previous: real): (g: real)
    ensures previous <= 0.0 ==> g == 0.0
    ensures previous > 0.0 ==> g * previous == (current - previous) * 100.0
    ensures previous > 0.0 ==> (g > 0.0 <==> current > previous) && (g == 0.0 <==> current == previous)
  {
    if previous > 0.0 then ((current - previous) / previous) * 100.0 else 0.0
  }

  // ------------------------------------------------------- sales by product

  const UnknownProduct := "Unknown Product"

  /** `item.product?.name || "Unknown Product"`: a missing product and an
      empty name are both grouped as unknown. */
  function ProductLabel(item: OrderItem): (name: string)
    ensures name != ""
    ensures item.product.Some? && item.product.value.name != "" ==> name == item.product.value.name
    ensures item.product.None? || item.product.value.name == "" ==> name == UnknownProduct
  {
    if item.product.Some? && item.product.value.name != "" then item.product.value.name else UnknownProduct
  }

  function Labels(items: seq<OrderItem>): (r: seq<string>)
    ensures |r| == |items|
    ensures forall i :: 0 <= i < |items| ==> r[i] == ProductLabel(items[i])
    decreases |items|
  {
    if items == [] then [] else Labels(items[..|items| - 1]) + [ProductLabel(items[|items| - 1])]
  }

  /** Units sold under `name`. */
  function SalesOf(items: seq<OrderItem>, name: string): int
    decreases |items|
  {
    if items == [] then 0
    else
      var last := items[|items| - 1];
      SalesOf(items[..|items| - 1], name) + (if ProductLabel(last) == name then last.quantity else 0)
  }

  /** Money taken under `name`: unit price times quantity, summed. */
  function RevenueOf(items: seq<OrderItem>, name: string): real
    decreases |items|
  {
    if items == [] then 0.0
    else
      var last := items[|items| - 1];
      RevenueOf(items[..|items| - 1], name) + (if ProductLabel(last) == name then last.price * last.quantity as real else 0.0)
  }

  /** A name no item carries has sold nothing. */
  lemma {:induction false} AbsentNameSoldNothing(items: seq<OrderItem>, name: string)
    requires name !in Labels(items)
    ensures SalesOf(items, name) == 0 && RevenueOf(items, name) == 0.0
    decreases |items|
  {
    if items != [] {
      var p := items[..|items| - 1];
      assert Labels(items) == Labels(p) + [ProductLabel(items[|items| - 1])];
      AbsentNameSoldNothing(p, name);
    }
  }

  datatype ProductStat = ProductStat(sales: int, revenue: real)

  /** Every entry of `stats` holds the totals of its name over `items`. */
  predicate Tallied(stats: map<string, ProductStat>, items: seq<OrderItem>)
  {
    forall n :: n in stats ==> stats[n] == ProductStat(SalesOf(items, n), RevenueOf(items, n))
  }

  /** One item counted into the running totals: its quantity and its line
      revenue are added to the entry of its name, created at zero. */
  function Accumulate(stats: map<string, ProductStat>, item: OrderItem): (r: map<string, ProductStat>)
    ensures r.Keys == stats.Keys + {ProductLabel(item)}
  {
    var name := ProductLabel(item);
    var existing := if name in stats then stats[name] else ProductStat(0, 0.0);
    stats[name := ProductStat(existing.sales + item.quantity, existing.revenue + item.price * item.quantity as real)]
  }

  /** The keys of the `productSales` map after reading the first `i` items:
      each name once, in the order it was first met. */
  function NamesUpTo(items: seq<OrderItem>, i: nat): seq<string>
    requires i <= |items|
  {
    if i == 0 then []
    else
      var prev := NamesUpTo(items, i - 1);
      if ProductLabel(items[i - 1]) in prev then prev else prev + [ProductLabel(items[i - 1])]
  }

  /** The `productSales` map after reading the first `i` items. */
  function TallyUpTo(items: seq<OrderItem>, i: nat): map<string, ProductStat>
    requires i <= |items|
  {
    if i == 0 then map[] else Accumulate(TallyUpTo(items, i - 1), items[i - 1])
  }

  /** The running key order is the first-occurrence order of the names read. */
  lemma {:induction false} NamesUpToAreDistinctNames(items: seq<OrderItem>, i: nat)
    requires i <= |items|
    ensures NamesUpTo(items, i) == Dedup(Labels(items[..i]))
  {
    if i == 0 {
      assert items[..0] == [];
    } else {
      NamesUpToAreDistinctNames(items, i - 1);
      ItemsSnoc(items, i - 1);
    }
  }

  /** The running map holds one entry per name read. */
  lemma {:induction false} TallyUpToKeys(items: seq<OrderItem>, i: nat)
    requires i <= |items|
    ensures forall n :: n in TallyUpTo(items, i) <==> n in Labels(items[..i])
  {
    if i == 0 {
      assert items[..0] == [];
    } else {
      TallyUpToKeys(items, i - 1);
      ItemsSnoc(items, i - 1);
    }
  }

  /** Each entry of the running map is the sum of its name's quantities and
      line revenues so far. */
  lemma {:induction false} TallyUpToIsTotals(items: seq<OrderItem>, i: nat)
    requires i <= |items|
    ensures Tallied(TallyUpTo(items, i), items[..i])
  {
    if i == 0 {
      assert items[..0] == [];
    } else {
      var prev := TallyUpTo(items, i - 1);
      assert TallyUpTo(items, i) == Accumulate(prev, items[i - 1]);
      TallyUpToIsTotals(items, i - 1);
      TallyUpToKeys(items, i - 1);
      TallyStep(prev, items, i - 1);
    }
  }

  /** The totals of every name the items carry, defined name by name. */
  function SalesTable(items: seq<OrderItem>): map<string, ProductStat>
  {
    map n | n in Labels(items) :: ProductStat(SalesOf(items, n), RevenueOf(items, n))
  }

  /** The `productSales` map, built by one pass over the items; `names` is its
      key order (a JavaScript `Map` iterates in insertion order). */
  method ProductSales(items: seq<OrderItem>) returns (names: seq<string>, stats: map<string, ProductStat>)
    ensures names == Dedup(Labels(items))
    ensures forall n :: n in stats <==> n in names
    ensures Tallied(stats, items)
    ensures stats == SalesTable(items)
  {
    names, stats := [], map[];
    var i := 0;
    while i < |items|
      invariant 0 <= i <= |items|
      invariant names == NamesUpTo(items, i)
      invariant stats == TallyUpTo(items, i)
    {
      var name := ProductLabel(items[i]);
      stats := Accumulate(stats, items[i]);
      if name !in names {
        names := names + [name];
      }
      i := i + 1;
    }
    assert items[..i] == items;
    NamesUpToAreDistinctNames(items, i);
    TallyUpToKeys(items, i);
    TallyUpToIsTotals(items, i);
    TalliedIsSalesTable(items, stats);
  }

  /** A map with an exact entry for each name the items carry, and no
      other, is the sales table. */
  lemma {:induction false} TalliedIsSalesTable(items: seq<OrderItem>, stats: map<string, ProductStat>)
    requires forall n :: n in stats <==> n in Labels(items)
    requires Tallied(stats, items)
    ensures stats == SalesTable(items)
  {
    assert stats.Keys == SalesTable(items).Keys;
  }

  /** Counting one more item into the tally keeps it exact. */
  lemma {:induction false} TallyStep(stats: map<string, ProductStat>, items: seq<OrderItem>, i: nat)
    requires i < |items|
    requires Tallied(stats, items[..i])
    requires forall n :: n in Labels(items[..i]) ==> n in stats
    ensures Tallied(Accumulate(stats, items[i]), items[..i + 1])
  {
    var name := ProductLabel(items[i]);
    if name !in stats {
      AbsentNameSoldNothing(items[..i], name);
    }
    var stats' := Accumulate(stats, items[i]);
    forall n | n in stats'
      ensures stats'[n] == ProductStat(SalesOf(items[..i + 1], n), RevenueOf(items[..i + 1], n))
    {
      TotalsSnoc(items, i, n);
    }
  }

  /** Extending the prefix of items read by one item. */
  lemma {:induction false} ItemsSnoc(items: seq<OrderItem>, i: nat)
    requires i < |items|
    ensures Labels(items[..i + 1]) == Labels(items[..i]) + [ProductLabel(items[i])]
    ensures Dedup(Labels(items[..i + 1])) ==
      if ProductLabel(items[i]) in Dedup(Labels(items[..i])) then Dedup(Labels(items[..i]))
      else Dedup(Labels(items[..i])) + [ProductLabel(items[i])]
  {
    assert items[..i + 1][..i] == items[..i];
    DedupSnoc(Labels(items[..i]), ProductLabel(items[i]));
  }

  /** Reading one more item adds its quantity and price to its own name only. */
  lemma {:induction false} TotalsSnoc(items: seq<OrderItem>, i: nat, n: string)
    requires i < |items|
    ensures SalesOf(items[..i + 1], n) == SalesOf(items[..i], n) + (if ProductLabel(items[i]) == n then items[i].quantity else 0)
    ensures RevenueOf(items[..i + 1], n) ==
      RevenueOf(items[..i], n) + (if ProductLabel(items[i]) == n then items[i].price * items[i].quantity as real else 0.0)
  {
    assert items[..i + 1][..i] == items[..i];
  }

  // ------------------------------------------------------------ top products

  datatype ProductSummary = ProductSummary(name: string, sales: int, revenue: real)

  /** `Array.from(productSales.entries()).map(([name, data]) => ({ name, ...data }))`. */
  function Summaries(names: seq<string>, stats: map<string, ProductStat>): (r: seq<ProductSummary>)
    requires forall n :: n in names ==> n in stats
    ensures |r| == |names|
    ensures forall i :: 0 <= i < |names| ==>
      r[i] == ProductSummary(names[i], stats[names[i]].sales, stats[names[i]].revenue)
  {
    if names == [] then []
    else [ProductSummary(names[0], stats[names[0]].sales, stats[names[0]].revenue)] + Summaries(names[1..], stats)
  }

  predicate ByRevenueDesc(s: seq<ProductSummary>)
  {
    forall i, j :: 0 <= i < j < |s| ==> s[i].revenue >= s[j].revenue
  }

  /** Places `x` before the first entry whose revenue is not greater, so
      that entries of equal revenue keep their order. */
  function InsertByRevenue(x: ProductSummary, s: seq<ProductSummary>): (r: seq<ProductSummary>)
    requires ByRevenueDesc(s)
    ensures ByRevenueDesc(r)
    ensures multiset(r) == multiset(s) + multiset{x}
  {
    if s == [] || x.revenue >= s[0].revenue then [x] + s
    else
      var rest := InsertByRevenue(x, s[1..]);
      HeadDominates(s, x, rest);
      [s[0]] + rest
  }

  /** The head of a sorted list is at least every element inserted after it. */
  lemma {:induction false} HeadDominates(s: seq<ProductSummary>, x: ProductSummary, rest: seq<ProductSummary>)
    requires s != [] && ByRevenueDesc(s) && x.revenue < s[0].revenue
    requires ByRevenueDesc(rest) && multiset(rest) == multiset(s[1..]) + multiset{x}
    ensures ByRevenueDesc([s[0]] + rest)
    ensures multiset([s[0]] + rest) == multiset(s) + multiset{x}
  {
    assert s == [s[0]] + s[1..];
    forall j | 0 <= j < |rest|
      ensures s[0].revenue >= rest[j].revenue
    {
      var y := rest[j];
      assert y in multiset(rest);
      if y != x {
        assert y in multiset(s[1..]);
        var k :| 0 <= k < |s[1..]| && s[1..][k] == y;
        assert s[k + 1] == y;
      }
    }
    var r := [s[0]] + rest;
    forall i, j | 0 <= i < j < |r|
      ensures r[i].revenue >= r[j].revenue
    {
      if i > 0 {
        assert r[i] == rest[i - 1] && r[j] == rest[j - 1];
      } else {
        assert r[j] == rest[j - 1];
      }
    }
  }

  /** `sort((a, b) => b.revenue - a.revenue)`: a stable sort, highest
      revenue first. */
  function SortByRevenue(s: seq<ProductSummary>): (r: seq<ProductSummary>)
    ensures ByRevenueDesc(r)
    ensures multiset(r) == multiset(s)
    ensures |r| == |s|
  {
    if s == [] then []
    else
      assert s == [s[0]] + s[1..];
      InsertByRevenue(s[0], SortByRevenue(s[1..]))
  }

  /** The five best sellers: the first five after sorting. */
  function TopProducts(entries: seq<ProductSummary>): (r: seq<ProductSummary>)
    ensures |r| == if |entries| < 5 then |entries| else 5
    ensures ByRevenueDesc(r)
    ensures multiset(r) <= multiset(entries)
  {
    var sorted := SortByRevenue(entries);
    var n := if |sorted| < 5 then |sorted| else 5;
    assert sorted == sorted[..n] + sorted[n..];
    sorted[..n]
  }

  /** No entry left out of the top five earns more than one kept in it. */
  lemma {:induction false} TopProductsAreTop(entries: seq<ProductSummary>)
    ensures forall x, y :: x in entries && x !in TopProducts(entries) && y in TopProducts(entries) ==> x.revenue <= y.revenue
  {
    var sorted := SortByRevenue(entries);
    var top := TopProducts(entries);
    assert top == sorted[..|top|];
    forall x, y | x in entries && x !in top && y in top
      ensures x.revenue <= y.revenue
    {
      assert x in multiset(sorted);
      var j :| 0 <= j < |sorted| && sorted[j] == x;
      var k :| 0 <= k < |top| && top[k] == y;
      assert j >= |top|;
    }
  }

  /** Every product listed among the top ones carries the totals of its
      name over the items read. */
  lemma {:induction false} TopProductsCarryTotals(items: seq<OrderItem>, names: seq<string>, stats: map<string, ProductStat>)
    requires forall n :: n in stats <==> n in names
    requires Tallied(stats, items)
    ensures forall e :: e in TopProducts(Summaries(names, stats)) ==>
      e.sales == SalesOf(items, e.name) && e.revenue == RevenueOf(items, e.name)
  {
    var entries := Summaries(names, stats);
    forall e | e in TopProducts(entries)
      ensures e.sales == SalesOf(items, e.name) && e.revenue == RevenueOf(items, e.name)
    {
      assert e in multiset(entries);
      var i :| 0 <= i < |entries| && entries[i] == e;
      assert names[i] in stats;
    }
  }

  // ------------------------------------------------------- revenue by month

  /** One calendar month: its first instant, the instant the page computes
      as its end (midnight at the start of its last day, from
      `new Date(year, month + 1, 0)`), and the first instant of the next
      month. Times are milliseconds. */
  datatype MonthWindow = MonthWindow(start: int, lastDay: int, nextStart: int)

  predicate WellFormed(w: MonthWindow)
  {
    w.start <= w.lastDay < w.nextStart
  }

  /** The month test as written: `orderDate >= monthStart && orderDate <= monthEnd`. */
  predicate InMonthAsWritten(t: int, w: MonthWindow)
  {
    w.start <= t <= w.lastDay
  }

  /** The month test as intended: any instant of the month. */
  predicate InMonth(t: int, w: MonthWindow)
  {
    w.start <= t < w.nextStart
  }

  /** An order placed one millisecond after midnight on the last day of a
      month is in that month, but the test as written counts it nowhere. */
  lemma {:induction false} LastDayOrdersAreDropped(w: MonthWindow)
    requires WellFormed(w) && w.lastDay + 1 < w.nextStart
    ensures InMonth(w.lastDay + 1, w) && !InMonthAsWritten(w.lastDay + 1, w)
  {
  }

  /** With consecutive months, every instant from the start of the earlier
      month to the end of the later one is in exactly one of the two. */
  lemma {:induction false} MonthsPartitionTime(earlier: MonthWindow, later: MonthWindow, t: int)
    requires WellFormed(earlier) && WellFormed(later) && later.start == earlier.nextStart
    requires earlier.start <= t < later.nextStart
    ensures InMonth(t, earlier) != InMonth(t, later)
  {
  }

  /** `allOrders?.filter(...) || []`: the orders the page counts in a month,
      with its own test; `timeOf` gives the instant an order was created. */
  function MonthOrders(allOrders: Option<seq<Order>>, timeOf: Order -> int, window: MonthWindow): (r: seq<Order>)
    ensures allOrders.None? ==> r == []
    ensures allOrders.Some? ==> IsSubsequence(r, allOrders.value)
    ensures allOrders.Some? ==> forall o ::
      multiset(r)[o] == if InMonthAsWritten(timeOf(o), window) then multiset(allOrders.value)[o] else 0
  {
    if allOrders.Some? then Filter(o => InMonthAsWritten(timeOf(o), window), allOrders.value) else []
  }

  /** The orders of a month under the intended test. */
  function CorrectedMonthOrders(allOrders: Option<seq<Order>>, timeOf: Order -> int, window: MonthWindow): (r: seq<Order>)
    ensures allOrders.None? ==> r == []
    ensures allOrders.Some? ==> IsSubsequence(r, allOrders.value)
    ensures allOrders.Some? ==> forall o ::
      multiset(r)[o] == if InMonth(timeOf(o), window) then multiset(allOrders.value)[o] else 0
  {
    if allOrders.Some? then Filter(o => InMonth(timeOf(o), window), allOrders.value) else []
  }

  /** The page's month misses exactly the orders placed after midnight on
      the month's last day: the intended month holds the page's orders plus
      those. */
  lemma {:induction false} MonthOrdersMissLastDay(orders: seq<Order>, timeOf: Order -> int, w: MonthWindow, o: Order)
    requires WellFormed(w)
    ensures multiset(CorrectedMonthOrders(Some(orders), timeOf, w))[o]
      == multiset(MonthOrders(Some(orders), timeOf, w))[o]
         + (if w.lastDay < timeOf(o) < w.nextStart then multiset(orders)[o] else 0)
  {
    var t := timeOf(o);
    if w.lastDay < t < w.nextStart {
      assert InMonth(t, w) && !InMonthAsWritten(t, w);
    } else {
      assert InMonth(t, w) == InMonthAsWritten(t, w);
    }
  }

  datatype MonthRow = MonthRow(month: string, revenue: real, orders: nat)

  /** The row of one month: its revenue and the number of orders summed
      into it. */
  function MonthRowOf(allOrders: Option<seq<Order>>, timeOf: Order -> int, window: MonthWindow, monthName: string): (row: MonthRow)
    ensures row.month == monthName
    ensures row.revenue == SumAmounts(MonthOrders(allOrders, timeOf, window))
    ensures row.orders == |MonthOrders(allOrders, timeOf, window)|
  {
    var monthOrders := MonthOrders(allOrders, timeOf, window);
    MonthRow(monthName, SumAmounts(monthOrders), |monthOrders|)
  }

  /** `revenueByMonth`: one row per month, from five months back to the
      current month. `windows(i)` and `labels(i)` are the window and the
      name the page derives from today's date moved back `i` months. */
  method RevenueByMonth(allOrders: Option<seq<Order>>, timeOf: Order -> int,
                        windows: nat -> MonthWindow, labels: nat -> string) returns (rows: seq<MonthRow>)
    ensures |rows| == 6
    ensures forall k :: 0 <= k < 6 ==> rows[k] == MonthRowOf(allOrders, timeOf, windows(5 - k), labels(5 - k))
  {
    rows := [];
    var i := 5;
    while i >= 0
      invariant -1 <= i <= 5
      invariant |rows| == 5 - i
      invariant forall k :: 0 <= k < |rows| ==> rows[k] == MonthRowOf(allOrders, timeOf, windows(5 - k), labels(5 - k))
    {
      rows := rows + [MonthRowOf(allOrders, timeOf, windows(i), labels(i))];
      i := i - 1;
    }
  }

  // -------------------------------------------------------- orders by status

  function StatusList(orders: seq<Order>): (r: seq<OrderStatus>)
    ensures |r| == |orders|
    ensures forall i :: 0 <= i < |orders| ==> r[i] == orders[i].status
    decreases |orders|
  {
    if orders == [] then [] else StatusList(orders[..|orders| - 1]) + [orders[|orders| - 1].status]
  }

  /** The keys of the `statusCounts` map after reading the first `i`
      orders, in insertion order. */
  function StatusesUpTo(orders: seq<Order>, i: nat): seq<OrderStatus>
    requires i <= |orders|
  {
    if i == 0 then []
    else
      var prev := StatusesUpTo(orders, i - 1);
      if orders[i - 1].status in prev then prev else prev + [orders[i - 1].status]
  }

  /** The `statusCounts` map after reading the first `i` orders. */
  function CountsUpTo(orders: seq<Order>, i: nat): map<OrderStatus, nat>
    requires i <= |orders|
  {
    if i == 0 then map[]
    else
      var prev := CountsUpTo(orders, i - 1);
      var st := orders[i - 1].status;
      prev[st := (if st in prev then prev[st] else 0) + 1]
  }

  /** Reading one more order appends its status to the list of statuses read. */
  lemma {:induction false} StatusListSnoc(orders: seq<Order>, i: nat)
    requires i < |orders|
    ensures StatusList(orders[..i + 1]) == StatusList(orders[..i]) + [orders[i].status]
  {
    assert orders[..i + 1][..i] == orders[..i];
  }

  /** The running key order is the first-occurrence order of the statuses read. */
  lemma {:induction false} StatusesUpToAreDistinctStatuses(orders: seq<Order>, i: nat)
    requires i <= |orders|
    ensures StatusesUpTo(orders, i) == Dedup(StatusList(orders[..i]))
  {
    if i == 0 {
      assert orders[..0] == [];
    } else {
      var before := StatusList(orders[..i - 1]);
      var st := orders[i - 1].status;
      StatusesUpToAreDistinctStatuses(orders, i - 1);
      StatusListSnoc(orders, i - 1);
      DedupSnoc(before, st);
      assert Dedup(StatusList(orders[..i])) == Dedup(before + [st]);
    }
  }

  /** The running map has a key for each status read, and counts its orders. */
  lemma {:induction false} CountsUpToAreCounts(orders: seq<Order>, i: nat)
    requires i <= |orders|
    ensures forall s :: s in CountsUpTo(orders, i) <==> s in StatusesUpTo(orders, i)
    ensures forall s :: s in CountsUpTo(orders, i) ==> CountsUpTo(orders, i)[s] == Count(StatusList(orders[..i]), s)
  {
    if i == 0 {
      assert orders[..0] == [];
    } else {
      CountsUpToAreCounts(orders, i - 1);
      StatusListSnoc(orders, i - 1);
      var before := StatusList(orders[..i - 1]);
      var st := orders[i - 1].status;
      forall s
        ensures Count(StatusList(orders[..i]), s) == Count(before, s) + (if st == s then 1 else 0)
      {
        CountSnoc(before, st, s);
      }
      forall s | s !in CountsUpTo(orders, i - 1)
        ensures Count(before, s) == 0
      {
        StatusesUpToAreDistinctStatuses(orders, i - 1);
      }
    }
  }

  /** The number of orders of every status that occurs, defined status by
      status. */
  function StatusTable(orders: seq<Order>): map<OrderStatus, nat>
  {
    map s | s in StatusList(orders) :: Count(StatusList(orders), s)
  }

  /** The `statusCounts` map, built by one pass over all orders; `statuses`
      is its key order. */
  method StatusCounts(allOrders: Option<seq<Order>>) returns (statuses: seq<OrderStatus>, counts: map<OrderStatus, nat>)
    ensures allOrders.None? ==> statuses == [] && counts == map[]
    ensures allOrders.Some? ==> statuses == Dedup(StatusList(allOrders.value))
    ensures forall s :: s in counts <==> s in statuses
    ensures allOrders.Some? ==> forall s :: s in counts ==> counts[s] == Count(StatusList(allOrders.value), s)
    ensures allOrders.Some? ==> counts == StatusTable(allOrders.value)
  {
    statuses, counts := [], map[];
    if allOrders.None? {
      return;
    }
    var orders := allOrders.value;
    var i := 0;
    while i < |orders|
      invariant 0 <= i <= |orders|
      invariant statuses == StatusesUpTo(orders, i)
      invariant counts == CountsUpTo(orders, i)
    {
      var status := orders[i].status;
      counts := counts[status := (if status in counts then counts[status] else 0) + 1];
      if status !in statuses {
        statuses := statuses + [status];
      }
      i := i + 1;
    }
    assert orders[..i] == orders;
    StatusesUpToAreDistinctStatuses(orders, i);
    CountsUpToAreCounts(orders, i);
    CountedIsStatusTable(orders, counts);
  }

  /** A map with the count of each status that occurs, and no other key,
      is the status table. */
  lemma {:induction false} CountedIsStatusTable(orders: seq<Order>, counts: map<OrderStatus, nat>)
    requires forall s :: s in counts <==> s in StatusList(orders)
    requires forall s :: s in counts ==> counts[s] == Count(StatusList(orders), s)
    ensures counts == StatusTable(orders)
  {
    assert counts.Keys == StatusTable(orders).Keys;
  }

  datatype StatusShare = StatusShare(status: OrderStatus, count: nat, percentage: real)

  /** Share of `count` in `total`, in percent; 0 when there are no orders. */
  function Percentage(count: nat, total: nat): (p: real)
    ensures total == 0 ==> p == 0.0
    ensures total > 0 ==> p * total as real == count as real * 100.0
  {
    if total > 0 then (count as real / total as real) * 100.0 else 0.0
  }

  /** `ordersByStatus`: one entry per key of `statusCounts`, in key order. */
  function OrdersByStatus(statuses: seq<OrderStatus>, counts: map<OrderStatus, nat>, total: nat): (r: seq<StatusShare>)
    requires forall s :: s in statuses ==> s in counts
    ensures |r| == |statuses|
    ensures forall i :: 0 <= i < |r| ==>
      r[i] == StatusShare(statuses[i], counts[statuses[i]], Percentage(counts[statuses[i]], total))
    decreases |statuses|
  {
    if statuses == [] then []
    else
      var last := statuses[|statuses| - 1];
      OrdersByStatus(statuses[..|statuses| - 1], counts, total) + [StatusShare(last, counts[last], Percentage(counts[last], total))]
  }

  function SumShareCounts(shares: seq<StatusShare>): int
    decreases |shares|
  {
    if shares == [] then 0 else SumShareCounts(shares[..|shares| - 1]) + shares[|shares| - 1].count
  }

  function SumPercentages(shares: seq<StatusShare>): real
    decreases |shares|
  {
    if shares == [] then 0.0 else SumPercentages(shares[..|shares| - 1]) + shares[|shares| - 1].percentage
  }

  /** The percentages add up as the counts do, scaled to the total. */
  lemma {:induction false} PercentagesScale(shares: seq<StatusShare>, total: nat)
    requires total > 0
    requires forall i :: 0 <= i < |shares| ==> shares[i].percentage == Percentage(shares[i].count, total)
    ensures SumPercentages(shares) * total as real == SumShareCounts(shares) as real * 100.0
    decreases |shares|
  {
    if shares != [] {
      var p := shares[..|shares| - 1];
      PercentagesScale(p, total);
      var last := shares[|shares| - 1];
      assert last.percentage * total as real == last.count as real * 100.0;
      calc {
        SumPercentages(shares) * total as real;
        (SumPercentages(p) + last.percentage) * total as real;
        SumPercentages(p) * total as real + last.percentage * total as real;
      }
    }
  }

  /** The counts listed per status are the counts of the orders. */
  lemma {:induction false} ShareCountsAreCounts(orders: seq<Order>, statuses: seq<OrderStatus>, counts: map<OrderStatus, nat>)
    requires forall s :: s in statuses ==> s in counts && counts[s] == Count(StatusList(orders), s)
    ensures SumShareCounts(OrdersByStatus(statuses, counts, |orders|)) == SumOfCounts(statuses, StatusList(orders))
    decreases |statuses|
  {
    if statuses != [] {
      var p := statuses[..|statuses| - 1];
      var shares := OrdersByStatus(statuses, counts, |orders|);
      assert shares[..|shares| - 1] == OrdersByStatus(p, counts, |orders|);
      ShareCountsAreCounts(orders, p, counts);
    }
  }

  /** Each order is counted under exactly one status: the counts listed add
      up to the number of orders. */
  lemma {:induction false} StatusCountsAddUp(orders: seq<Order>, statuses: seq<OrderStatus>, counts: map<OrderStatus, nat>)
    requires statuses == Dedup(StatusList(orders))
    requires forall s :: s in statuses ==> s in counts && counts[s] == Count(StatusList(orders), s)
    ensures SumShareCounts(OrdersByStatus(statuses, counts, |orders|)) == |orders|
  {
    ShareCountsAreCounts(orders, statuses, counts);
    CountsOverDedup(StatusList(orders));
  }

  /** Shares of a whole that their counts add up to add up to 100 percent. */
  lemma {:induction false} PercentagesOfWhole(shares: seq<StatusShare>, total: nat)
    requires total > 0
    requires forall i :: 0 <= i < |shares| ==> shares[i].percentage == Percentage(shares[i].count, total)
    requires SumShareCounts(shares) == total
    ensures SumPercentages(shares) == 100.0
  {
    PercentagesScale(shares, total);
    var t := total as real;
    var x := SumPercentages(shares);
    assert SumShareCounts(shares) as real == t;
    CancelPositive(x, 100.0, t);
  }

  /** A positive factor can be cancelled. */
  lemma {:induction false} CancelPositive(x: real, y: real, t: real)
    requires t > 0.0 && x * t == t * y
    ensures x == y
  {
    calc {
      x;
      (x * t) / t;
      (t * y) / t;
      y;
    }
  }

  /** When there are orders, the percentages listed add up to 100. */
  lemma {:induction false} StatusPercentagesAddUp(orders: seq<Order>, statuses: seq<OrderStatus>, counts: map<OrderStatus, nat>)
    requires statuses == Dedup(StatusList(orders))
    requires forall s :: s in statuses ==> s in counts && counts[s] == Count(StatusList(orders), s)
    requires |orders| > 0
    ensures SumPercentages(OrdersByStatus(statuses, counts, |orders|)) == 100.0
  {
    StatusCountsAddUp(orders, statuses, counts);
    PercentagesOfWhole(OrdersByStatus(statuses, counts, |orders|), |orders|);
  }

  // ------------------------------------------------------------ whole screen

  /** The rows of an answer, none for a null answer (`rows?.forEach`). */
  function RowsRead<T>(answer: Option<seq<T>>): (r: seq<T>)
    ensures answer.Some? ==> r == answer.value
    ensures answer.None? ==> r == []
  {
    if answer.Some? then answer.value else []
  }

  datatype AnalyticsData = AnalyticsData(
    totalRevenue: real,
    totalOrders: nat,
    totalProducts: int,
    averageOrderValue: real,
    revenueGrowth: real,
    ordersGrowth: real,
    topProducts: seq<ProductSummary>,
    revenueByMonth: seq<MonthRow>,
    ordersByStatus: seq<StatusShare>)

  /** `topProducts`: the items tallied by name, sorted by revenue and cut
      to five. */
  method BestSellers(orderItems: Option<seq<OrderItem>>) returns (top: seq<ProductSummary>)
    ensures top == TopProducts(Summaries(Dedup(Labels(RowsRead(orderItems))), SalesTable(RowsRead(orderItems))))
    ensures |top| <= 5 && ByRevenueDesc(top)
    ensures orderItems.Some? ==> forall e :: e in top ==>
      e.sales == SalesOf(orderItems.value, e.name) && e.revenue == RevenueOf(orderItems.value, e.name)
  {
    var items := RowsRead(orderItems);
    var names, stats := ProductSales(items);
    top := TopProducts(Summaries(names, stats));
    TopProductsCarryTotals(items, names, stats);
  }

  /** `ordersByStatus`: the status counts of all orders with their
      percentages. */
  method StatusShares(allOrders: Option<seq<Order>>) returns (shares: seq<StatusShare>)
    ensures allOrders.None? ==> shares == []
    ensures allOrders.Some? ==>
      shares == OrdersByStatus(Dedup(StatusList(allOrders.value)), StatusTable(allOrders.value), |allOrders.value|)
    ensures allOrders.Some? ==> SumShareCounts(shares) == |allOrders.value|
    ensures allOrders.Some? && |allOrders.value| > 0 ==> SumPercentages(shares) == 100.0
  {
    var statuses, counts := StatusCounts(allOrders);
    shares := OrdersByStatus(statuses, counts, TotalOrders(allOrders));
    if allOrders.Some? {
      StatusCountsAddUp(allOrders.value, statuses, counts);
      if |allOrders.value| > 0 {
        StatusPercentagesAddUp(allOrders.value, statuses, counts);
      }
    }
  }

  /** The metric part of `fetchAnalytics`, from the answers of its five
      queries: the period's orders, all orders, the product count, the
      period's order items, and the previous period's orders. */
  method ComputeAnalytics(orders: Option<seq<Order>>, allOrders: Option<seq<Order>>, productsCount: Option<int>,
                          orderItems: Option<seq<OrderItem>>, previousOrders: Option<seq<Order>>,
                          timeOf: Order -> int, windows: nat -> MonthWindow, labels: nat -> string)
    returns (data: AnalyticsData)
    ensures data.totalRevenue == TotalRevenue(orders) && data.totalOrders == TotalOrders(orders)
    ensures data.totalProducts == if productsCount.Some? then productsCount.value else 0
    ensures data.averageOrderValue == AverageOrderValue(data.totalRevenue, data.totalOrders)
    ensures data.revenueGrowth == Growth(data.totalRevenue, TotalRevenue(previousOrders))
    ensures data.ordersGrowth == Growth(data.totalOrders as real, TotalOrders(previousOrders) as real)
    ensures data.topProducts == TopProducts(Summaries(Dedup(Labels(RowsRead(orderItems))), SalesTable(RowsRead(orderItems))))
    ensures |data.topProducts| <= 5 && ByRevenueDesc(data.topProducts)
    ensures orderItems.Some? ==> forall e :: e in data.topProducts ==>
      e.sales == SalesOf(orderItems.value, e.name) && e.revenue == RevenueOf(orderItems.value, e.name)
    ensures |data.revenueByMonth| == 6
    ensures forall k :: 0 <= k < 6 ==> data.revenueByMonth[k] == MonthRowOf(allOrders, timeOf, windows(5 - k), labels(5 - k))
    ensures allOrders.Some? ==>
      data.ordersByStatus == OrdersByStatus(Dedup(StatusList(allOrders.value)), StatusTable(allOrders.value), |allOrders.value|)
    ensures allOrders.Some? ==> SumShareCounts(data.ordersByStatus) == |allOrders.value|
    ensures allOrders.Some? && |allOrders.value| > 0 ==> SumPercentages(data.ordersByStatus) == 100.0
    ensures allOrders.None? ==> data.ordersByStatus == []
  {
    var totalRevenue := TotalRevenue(orders);
    var totalOrders := TotalOrders(orders);
    var averageOrderValue := AverageOrderValue(totalRevenue, totalOrders);
    var revenueGrowth := Growth(totalRevenue, TotalRevenue(previousOrders));
    var ordersGrowth := Growth(totalOrders as real, TotalOrders(previousOrders) as real);

    var topProducts := BestSellers(orderItems);
    var revenueByMonth := RevenueByMonth(allOrders, timeOf, windows, labels);
    var ordersByStatus := StatusShares(allOrders);

    data := AnalyticsData(totalRevenue, totalOrders, if productsCount.Some? then productsCount.value else 0,
                          averageOrderValue, revenueGrowth, ordersGrowth, topProducts, revenueByMonth, ordersByStatus);
  }
}

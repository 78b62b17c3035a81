/** The aggregator: folds the order and product lists into the series and tables the
    dashboard shows. "Now" is the parameter `today`, a day number. */
module Aggregator {
  import opened Types
  import opened Sequences
  import opened Generator

  // ---------------------------------------------------------------------------
  // Product lookup and the order filters
  // ---------------------------------------------------------------------------

  /** The lookup of a product by id: the first product of the list that carries it. */
  function FindProduct(products: seq<Product>, id: string): Option<Product>
  {
    if products == [] then None
    else if products[0].id == id then Some(products[0])
    else FindProduct(products[1..], id)
  }

  /** The lookup fails exactly when no product has the id; otherwise it gives the first
      product that has it. */
  lemma {:induction false} FindProductFirst(products: seq<Product>, id: string)
    ensures FindProduct(products, id).None? <==> forall j :: 0 <= j < |products| ==> products[j].id != id
    ensures FindProduct(products, id).Some? ==>
      exists j :: 0 <= j < |products| && products[j] == FindProduct(products, id).value &&
                  products[j].id == id && (forall i :: 0 <= i < j ==> products[i].id != id)
  {
    if products != [] && products[0].id != id {
      var rest := products[1..];
      FindProductFirst(rest, id);
      assert forall j :: 0 < j < |products| ==> products[j] == rest[j - 1];
      if FindProduct(rest, id).Some? {
        var j :| 0 <= j < |rest| && rest[j] == FindProduct(rest, id).value &&
                 rest[j].id == id && (forall i :: 0 <= i < j ==> rest[i].id != id);
        assert products[j + 1] == rest[j];
      }
    }
  }

  /** The category of the product an order refers to, when the product is found. */
  function ProductCategory(products: seq<Product>, o: Order): Option<string>
  {
    match FindProduct(products, o.productId)
    case None => None
    case Some(p) => Some(p.category)
  }

  /** The conditions the `filter` callbacks and the `if` of the fold apply to one order.
      InWindow, InCategories, Resolvable and AnyCompleted name the unions of these
      buckets that the lemmas below speak about. */
  datatype Query =
    | OnDay(day: int)
    | InWindow(first: int, last: int)
    | OfCategory(products: seq<Product>, category: string)
    | InCategories(products: seq<Product>, categories: seq<string>)
    | OnDayOfCategory(products: seq<Product>, category: string, day: int)
    | Resolvable(products: seq<Product>)
    | Via(channel: Channel)
    | AnyCompleted

  /** Every bucket holds completed orders only. */
  predicate Admits(q: Query, o: Order)
  {
    o.status == Completed &&
    match q
    case OnDay(d) => o.date == d
    case InWindow(first, last) => first <= o.date <= last
    case OfCategory(ps, c) => ProductCategory(ps, o) == Some(c)
    case InCategories(ps, cs) => ProductCategory(ps, o).Some? && ProductCategory(ps, o).value in cs
    case OnDayOfCategory(ps, c, d) => o.date == d && ProductCategory(ps, o) == Some(c)
    case Resolvable(ps) => ProductCategory(ps, o).Some?
    case Via(m) => o.marketplace == m
    case AnyCompleted => true
  }

  /** The filter of an order list: the admitted orders, in their original order. */
  function Select(os: seq<Order>, q: Query): (r: seq<Order>)
    ensures |r| <= |os|
  {
    if os == [] then []
    else
      var rest := Select(os[..|os| - 1], q);
      if Admits(q, os[|os| - 1]) then rest + [os[|os| - 1]] else rest
  }

  /** The filter keeps exactly the admitted orders. */
  lemma {:induction false} SelectMembers(os: seq<Order>, q: Query)
    ensures forall o :: o in Select(os, q) <==> o in os && Admits(q, o)
    decreases |os|
  {
    if os != [] {
      var init, last := os[..|os| - 1], os[|os| - 1];
      assert os == init + [last];
      SelectMembers(init, q);
    }
  }

  /** The sum of the orders' totals. */
  function SumTotals(os: seq<Order>): int
  {
    if os == [] then 0 else SumTotals(os[..|os| - 1]) + os[|os| - 1].total
  }

  lemma {:induction false} SumTotalsAppend(a: seq<Order>, b: seq<Order>)
    ensures SumTotals(a + b) == SumTotals(a) + SumTotals(b)
    decreases |b|
  {
    if b != [] {
      assert (a + b)[..|a + b| - 1] == a + b[..|b| - 1];
      SumTotalsAppend(a, b[..|b| - 1]);
    } else {
      assert a + b == a;
    }
  }

  /** Filtering a concatenation filters each part. */
  lemma {:induction false} SelectAppend(a: seq<Order>, b: seq<Order>, q: Query)
    ensures Select(a + b, q) == Select(a, q) + Select(b, q)
    decreases |b|
  {
    if b == [] {
      assert a + b == a;
    } else {
      assert (a + b)[..|a + b| - 1] == a + b[..|b| - 1];
      SelectAppend(a, b[..|b| - 1], q);
    }
  }

  /** An order a bucket does not admit can be removed from anywhere in the list. */
  lemma SelectSkips(a: seq<Order>, o: Order, b: seq<Order>, q: Query)
    requires !Admits(q, o)
    ensures Select(a + [o] + b, q) == Select(a + b, q)
  {
    SelectAppend(a + [o], b, q);
    SelectAppend(a, [o], q);
    SelectAppend(a, b, q);
    assert Select([o], q) == [] by { assert [o][..0] == []; }
  }

  lemma {:induction false} SelectNone(os: seq<Order>, q: Query)
    requires forall o :: o in os ==> !Admits(q, o)
    ensures Select(os, q) == []
    decreases |os|
  {
    if os != [] {
      assert os[|os| - 1] in os;
      SelectNone(os[..|os| - 1], q);
    }
  }

  /** Two buckets that admit the same orders of `os` select the same list. */
  lemma {:induction false} SelectSame(os: seq<Order>, q1: Query, q2: Query)
    requires forall o :: o in os ==> (Admits(q1, o) <==> Admits(q2, o))
    ensures Select(os, q1) == Select(os, q2)
    decreases |os|
  {
    if os != [] {
      SelectSame(os[..|os| - 1], q1, q2);
    }
  }

  /** A bucket that is the disjoint union of two others holds their sum and their count. */
  lemma {:induction false} SelectSplit(os: seq<Order>, q: Query, q1: Query, q2: Query)
    requires forall o :: o in os ==> (Admits(q, o) <==> Admits(q1, o) || Admits(q2, o))
    requires forall o :: o in os ==> !(Admits(q1, o) && Admits(q2, o))
    ensures SumTotals(Select(os, q)) == SumTotals(Select(os, q1)) + SumTotals(Select(os, q2))
    ensures |Select(os, q)| == |Select(os, q1)| + |Select(os, q2)|
    decreases |os|
  {
    if os != [] {
      var init, last := os[..|os| - 1], os[|os| - 1];
      assert os == init + [last];
      SelectSplit(init, q, q1, q2);
      SelectLast(init, last, q);
      SelectLast(init, last, q1);
      SelectLast(init, last, q2);
    }
  }

  /** Filtering one more order at the end adds it, with its total, exactly when it is admitted. */
  lemma SelectLast(init: seq<Order>, last: Order, q: Query)
    ensures Select(init + [last], q) == Select(init, q) + (if Admits(q, last) then [last] else [])
    ensures SumTotals(Select(init + [last], q)) == SumTotals(Select(init, q)) + (if Admits(q, last) then last.total else 0)
    ensures |Select(init + [last], q)| == |Select(init, q)| + (if Admits(q, last) then 1 else 0)
  {
    var os := init + [last];
    assert os[..|os| - 1] == init;
    var s := Select(init, q);
    assert (s + [last])[..|s|] == s;
  }

  /** A narrower bucket holds no more orders, and no more revenue when totals are non-negative. */
  lemma {:induction false} SelectNarrower(os: seq<Order>, q1: Query, q2: Query)
    requires forall o :: o in os ==> Admits(q1, o) ==> Admits(q2, o)
    ensures |Select(os, q1)| <= |Select(os, q2)|
    ensures (forall o :: o in os ==> o.total >= 0) ==>
      SumTotals(Select(os, q1)) <= SumTotals(Select(os, q2))
    decreases |os|
  {
    if os != [] {
      var init, last := os[..|os| - 1], os[|os| - 1];
      SelectNarrower(init, q1, q2);
      var s1, s2 := Select(init, q1), Select(init, q2);
      assert (s1 + [last])[..|s1|] == s1;
      assert (s2 + [last])[..|s2|] == s2;
    }
  }

  /** The sum of the points' revenue, and below the sum of their order counts. */
  function Revenue(rows: seq<RevenueData>): int
  {
    if rows == [] then 0 else Revenue(rows[..|rows| - 1]) + rows[|rows| - 1].revenue
  }

  function OrderCount(rows: seq<RevenueData>): int
  {
    if rows == [] then 0 else OrderCount(rows[..|rows| - 1]) + rows[|rows| - 1].orders
  }

  lemma {:induction false} RevenueAppend(a: seq<RevenueData>, b: seq<RevenueData>)
    ensures Revenue(a + b) == Revenue(a) + Revenue(b)
    ensures OrderCount(a + b) == OrderCount(a) + OrderCount(b)
    decreases |b|
  {
    if b != [] {
      assert (a + b)[..|a + b| - 1] == a + b[..|b| - 1];
      RevenueAppend(a, b[..|b| - 1]);
    } else {
      assert a + b == a;
    }
  }

  lemma RevenueSingle(x: RevenueData)
    ensures Revenue([x]) == x.revenue && OrderCount([x]) == x.orders
  {
    assert [x][..0] == [];
  }

  // ---------------------------------------------------------------------------
  // Daily revenue
  // ---------------------------------------------------------------------------

  const Days := 30

  /** The chart point for day `d`: the completed orders of that day, summed and counted. */
  function DailyPoint(orders: seq<Order>, d: int): RevenueData
  {
    var hits := Select(orders, OnDay(d));
    RevenueData(Day(d), SumTotals(hits), |hits|, None, None)
  }

  /** `n` consecutive daily points, oldest first, starting at day `first`. */
  function DaySpan(orders: seq<Order>, first: int, n: nat): seq<RevenueData>
  {
    seq(n, k => DailyPoint(orders, first + k))
  }

  /** The daily series: the last 30 days up to and including `today`, oldest first. */
  function DailySeries(orders: seq<Order>, today: int): seq<RevenueData>
  {
    DaySpan(orders, today - (Days - 1), Days)
  }

  /** `generateDailyRevenueData`: builds the points newest first, then reverses them. */
  method GenerateDailyRevenueData(orders: seq<Order>, today: int) returns (r: seq<RevenueData>)
    ensures r == DailySeries(orders, today)
    ensures |r| == Days && r[Days - 1].date == Day(today)
    ensures forall k :: 0 <= k < Days ==> r[k].date == Day(today - (Days - 1) + k)
  {
    var result: seq<RevenueData> := [];
    for i := 0 to Days
      invariant |result| == i
      invariant forall j :: 0 <= j < i ==> result[j] == DailyPoint(orders, today - j)
    {
      var date := today - i;
      var dayOrders := Select(orders, OnDay(date));
      var dayRevenue := SumTotals(dayOrders);
      result := result + [RevenueData(Day(date), dayRevenue, |dayOrders|, None, None)];
    }
    r := Reversed(result);
  }

  /** The points of a span together hold exactly the completed orders dated inside it. */
  lemma {:induction false} DaySpanTotal(orders: seq<Order>, first: int, n: nat)
    ensures Revenue(DaySpan(orders, first, n)) == SumTotals(Select(orders, InWindow(first, first + n - 1)))
    ensures OrderCount(DaySpan(orders, first, n)) == |Select(orders, InWindow(first, first + n - 1))|
  {
    if n == 0 {
      SelectNone(orders, InWindow(first, first - 1));
    } else {
      var span := DaySpan(orders, first, n);
      assert Revenue(span) == Revenue(DaySpan(orders, first, n - 1)) + span[n - 1].revenue &&
        OrderCount(span) == OrderCount(DaySpan(orders, first, n - 1)) + span[n - 1].orders by {
        assert span[..n - 1] == DaySpan(orders, first, n - 1);
      }
      assert span[n - 1] == DailyPoint(orders, first + n - 1);
      DaySpanTotal(orders, first, n - 1);
      var q, q1, q2 := InWindow(first, first + n - 1), InWindow(first, first + n - 2), OnDay(first + n - 1);
      assert forall o :: o in orders ==> (Admits(q, o) <==> Admits(q1, o) || Admits(q2, o)) && !(Admits(q1, o) && Admits(q2, o));
      SelectSplit(orders, q, q1, q2);
    }
  }

  /** Over the whole series no completed order of the 30-day window is lost or counted twice. */
  lemma DailyWindowTotal(orders: seq<Order>, today: int)
    ensures Revenue(DailySeries(orders, today)) == SumTotals(Select(orders, InWindow(today - (Days - 1), today)))
    ensures OrderCount(DailySeries(orders, today)) == |Select(orders, InWindow(today - (Days - 1), today))|
  {
    DaySpanTotal(orders, today - (Days - 1), Days);
  }

  /** A pending or cancelled order, wherever it stands, changes no daily point. */
  lemma DailyIgnoresIncomplete(a: seq<Order>, o: Order, b: seq<Order>, today: int)
    requires o.status != Completed
    ensures DailySeries(a + [o] + b, today) == DailySeries(a + b, today)
  {
    forall d: int ensures DailyPoint(a + [o] + b, d) == DailyPoint(a + b, d) {
      SelectSkips(a, o, b, OnDay(d));
    }
    assert forall k :: 0 <= k < Days ==> DailySeries(a + [o] + b, today)[k] == DailySeries(a + b, today)[k];
  }

  /** With no orders every one of the 30 points is zero. */
  lemma DailyOfNoOrders(today: int)
    ensures |DailySeries([], today)| == Days
    ensures forall k :: 0 <= k < Days ==>
      DailySeries([], today)[k].revenue == 0 && DailySeries([], today)[k].orders == 0
  {
    forall k | 0 <= k < Days
      ensures DailySeries([], today)[k].revenue == 0 && DailySeries([], today)[k].orders == 0
    {
      assert DailySeries([], today)[k] == DailyPoint([], today - (Days - 1) + k);
    }
  }

  // ---------------------------------------------------------------------------
  // Weekly revenue
  // ---------------------------------------------------------------------------

  const Weeks := 4
  const WeekLength := 7

  /** The slice of the daily series that the point labelled `Week n` sums. */
  function WeekWindow(daily: seq<RevenueData>, n: int): seq<RevenueData>
    requires 1 <= n <= Weeks
  {
    Slice(daily, (Weeks - n) * WeekLength, (Weeks - n + 1) * WeekLength)
  }

  function WeekPoint(daily: seq<RevenueData>, n: int): RevenueData
    requires 1 <= n <= Weeks
  {
    var w := WeekWindow(daily, n);
    RevenueData(Week(n), Revenue(w), OrderCount(w), None, None)
  }

  /** The weekly series: `Week 1` .. `Week 4` in that order; `Week n` covers daily
      positions `(4 - n) * 7` up to `(5 - n) * 7`, so `Week 4` is the oldest window. */
  function WeeklySeries(daily: seq<RevenueData>): seq<RevenueData>
  {
    seq(Weeks, k requires 0 <= k < Weeks => WeekPoint(daily, k + 1))
  }

  /** `generateWeeklyRevenueData`: slices windows of 7 from the front, labels slice `i`
      `Week 4 - i`, then reverses. */
  method GenerateWeeklyRevenueData(dailyData: seq<RevenueData>) returns (r: seq<RevenueData>)
    ensures r == WeeklySeries(dailyData)
    ensures |r| == Weeks && forall k :: 0 <= k < Weeks ==> r[k].date == Week(k + 1)
  {
    var result: seq<RevenueData> := [];
    for i := 0 to Weeks
      invariant |result| == i
      invariant forall j :: 0 <= j < i ==> result[j] == WeekPoint(dailyData, Weeks - j)
    {
      var weekData := Slice(dailyData, i * WeekLength, (i + 1) * WeekLength);
      var weekRevenue := Revenue(weekData);
      var weekOrders := OrderCount(weekData);
      result := result + [RevenueData(Week(Weeks - i), weekRevenue, weekOrders, None, None)];
    }
    r := Reversed(result);
  }

  /** The four windows laid end to end are the first 28 days (or all of a shorter input). */
  lemma WeekWindowsCover(daily: seq<RevenueData>)
    ensures WeekWindow(daily, 4) + WeekWindow(daily, 3) + WeekWindow(daily, 2) + WeekWindow(daily, 1)
      == daily[..Min(|daily|, Weeks * WeekLength)]
  {
  }

  /** The weekly series sums the first 28 daily points: revenue is neither lost nor
      counted twice among them, and everything from position 28 on is dropped. */
  lemma WeeklyTotal(daily: seq<RevenueData>)
    ensures Revenue(WeeklySeries(daily)) == Revenue(daily[..Min(|daily|, Weeks * WeekLength)])
    ensures OrderCount(WeeklySeries(daily)) == OrderCount(daily[..Min(|daily|, Weeks * WeekLength)])
  {
    var ws := WeeklySeries(daily);
    var w1, w2, w3, w4 := WeekWindow(daily, 1), WeekWindow(daily, 2), WeekWindow(daily, 3), WeekWindow(daily, 4);
    assert ws == [ws[0]] + [ws[1]] + [ws[2]] + [ws[3]];
    RevenueAppend([ws[0]], [ws[1]]);
    RevenueAppend([ws[0]] + [ws[1]], [ws[2]]);
    RevenueAppend([ws[0]] + [ws[1]] + [ws[2]], [ws[3]]);
    RevenueSingle(ws[0]);
    RevenueSingle(ws[1]);
    RevenueSingle(ws[2]);
    RevenueSingle(ws[3]);
    WeekWindowsCover(daily);
    RevenueAppend(w4, w3);
    RevenueAppend(w4 + w3, w2);
    RevenueAppend(w4 + w3 + w2, w1);
  }

  /** Daily points from position 28 on never reach the weekly series. */
  lemma WeeklyIgnoresTail(daily: seq<RevenueData>, extra: seq<RevenueData>)
    requires |daily| >= Weeks * WeekLength
    ensures WeeklySeries(daily + extra) == WeeklySeries(daily)
  {
    forall n | 1 <= n <= Weeks ensures WeekWindow(daily + extra, n) == WeekWindow(daily, n) {
      var a, b := WeekWindow(daily + extra, n), WeekWindow(daily, n);
      assert |a| == |b|;
      assert forall k :: 0 <= k < |a| ==> a[k] == b[k];
    }
    assert forall k :: 0 <= k < Weeks ==> WeeklySeries(daily + extra)[k] == WeeklySeries(daily)[k];
  }

  /** A window that starts past the end of a short input is a zero point. */
  lemma WeeklyShortInput(daily: seq<RevenueData>, n: int)
    requires 1 <= n <= Weeks && |daily| <= (Weeks - n) * WeekLength
    ensures WeeklySeries(daily)[n - 1].revenue == 0 && WeeklySeries(daily)[n - 1].orders == 0
  {
  }

  /** On the dashboard's own input the weekly series covers the completed orders of days
      `today - 29` to `today - 2`: yesterday and today never appear in a week. */
  lemma WeeklyOfDailySeries(orders: seq<Order>, today: int)
    ensures Revenue(WeeklySeries(DailySeries(orders, today)))
      == SumTotals(Select(orders, InWindow(today - (Days - 1), today - 2)))
    ensures OrderCount(WeeklySeries(DailySeries(orders, today)))
      == |Select(orders, InWindow(today - (Days - 1), today - 2))|
  {
    var daily := DailySeries(orders, today);
    WeeklyTotal(daily);
    assert daily[..Weeks * WeekLength] == DaySpan(orders, today - (Days - 1), Weeks * WeekLength);
    DaySpanTotal(orders, today - (Days - 1), Weeks * WeekLength);
  }

  // ---------------------------------------------------------------------------
  // Category sales
  // ---------------------------------------------------------------------------

  /** One accumulator entry of `categorySales`. */
  datatype Tally = Tally(revenue: int, orders: int)

  /** What the fold has accumulated for category `c` after the orders `os`. */
  function TallyOf(os: seq<Order>, products: seq<Product>, c: string): Tally
  {
    var hits := Select(os, OfCategory(products, c));
    Tally(SumTotals(hits), |hits|)
  }

  /** One step of the fold: an admitted order adds its total and one to the entry of its category. */
  lemma TallyStep(os: seq<Order>, o: Order, products: seq<Product>, c: string)
    ensures TallyOf(os + [o], products, c) ==
      if Admits(OfCategory(products, c), o)
      then Tally(TallyOf(os, products, c).revenue + o.total, TallyOf(os, products, c).orders + 1)
      else TallyOf(os, products, c)
  {
    SelectLast(os, o, OfCategory(products, c));
  }

  /** A completed order whose product is in category `c` adds to `c`'s entry only. */
  lemma FoldAdds(acc: map<string, Tally>, os: seq<Order>, o: Order, products: seq<Product>, c: string)
    requires forall k :: k in acc ==> acc[k] == TallyOf(os, products, k)
    requires c in acc && Admits(OfCategory(products, c), o)
    ensures forall k :: k in acc ==>
      acc[c := Tally(acc[c].revenue + o.total, acc[c].orders + 1)][k] == TallyOf(os + [o], products, k)
  {
    forall k | k in acc ensures
      acc[c := Tally(acc[c].revenue + o.total, acc[c].orders + 1)][k] == TallyOf(os + [o], products, k)
    {
      TallyStep(os, o, products, k);
    }
  }

  /** An order that is not completed, or whose product is not found, leaves every entry as it was. */
  lemma FoldSkips(acc: map<string, Tally>, os: seq<Order>, o: Order, products: seq<Product>)
    requires forall k :: k in acc ==> acc[k] == TallyOf(os, products, k)
    requires o.status != Completed || ProductCategory(products, o).None?
    ensures forall k :: k in acc ==> acc[k] == TallyOf(os + [o], products, k)
  {
    forall k | k in acc ensures acc[k] == TallyOf(os + [o], products, k) {
      assert !Admits(OfCategory(products, k), o);
      TallyStep(os, o, products, k);
    }
  }

  function CategoryRow(orders: seq<Order>, products: seq<Product>, c: string): CategorySales
  {
    var hits := Select(orders, OfCategory(products, c));
    CategorySales(c, SumTotals(hits), |hits|)
  }

  function CategoryRowsFor(orders: seq<Order>, products: seq<Product>, cats: seq<string>): seq<CategorySales>
  {
    seq(|cats|, k requires 0 <= k < |cats| => CategoryRow(orders, products, cats[k]))
  }

  /** The category table: one row per known category, in the order of `Categories`. */
  function CategoryRows(orders: seq<Order>, products: seq<Product>): seq<CategorySales>
  {
    CategoryRowsFor(orders, products, Categories)
  }

  /** The fold throws unless every completed order whose product is found has a known category. */
  predicate KnownCategories(orders: seq<Order>, products: seq<Product>)
  {
    forall o :: o in orders && o.status == Completed && ProductCategory(products, o).Some? ==>
      ProductCategory(products, o).value in Categories
  }

  function CategoryRevenue(rows: seq<CategorySales>): int
  {
    if rows == [] then 0 else CategoryRevenue(rows[..|rows| - 1]) + rows[|rows| - 1].revenue
  }

  function CategoryOrderCount(rows: seq<CategorySales>): int
  {
    if rows == [] then 0 else CategoryOrderCount(rows[..|rows| - 1]) + rows[|rows| - 1].orders
  }

  /** `generateCategorySales`: a zeroed accumulator per category, then one pass over the
      orders adding each completed order with a found product to its category. */
  method GenerateCategorySales(orders: seq<Order>, products: seq<Product>) returns (rows: seq<CategorySales>)
    requires KnownCategories(orders, products)
    ensures rows == CategoryRows(orders, products)
  {
    var acc: map<string, Tally> := map[];
    for k := 0 to |Categories|
      invariant forall c :: c in acc <==> c in Categories[..k]
      invariant forall c :: c in acc ==> acc[c] == Tally(0, 0)
    {
      acc := acc[Categories[k] := Tally(0, 0)];
    }
    assert Categories[..|Categories|] == Categories;
    for j := 0 to |orders|
      invariant forall c :: c in acc <==> c in Categories
      invariant forall c :: c in acc ==> acc[c] == TallyOf(orders[..j], products, c)
    {
      var order := orders[j];
      assert orders[..j + 1] == orders[..j] + [order];
      if order.status == Completed {
        var product := FindProduct(products, order.productId);
        if product.Some? {
          var c := product.value.category;
          assert ProductCategory(products, order) == Some(c);
          assert order in orders;
          FoldAdds(acc, orders[..j], order, products, c);
          acc := acc[c := Tally(acc[c].revenue + order.total, acc[c].orders + 1)];
        } else {
          FoldSkips(acc, orders[..j], order, products);
        }
      } else {
        FoldSkips(acc, orders[..j], order, products);
      }
    }
    assert orders[..|orders|] == orders;
    rows := seq(|Categories|, k requires 0 <= k < |Categories| =>
      CategorySales(Categories[k], acc[Categories[k]].revenue, acc[Categories[k]].orders));
  }

  /** The bucket of a list of categories is that of all but the last, plus the last one's. */
  lemma InCategoriesSplit(products: seq<Product>, cats: seq<string>, o: Order)
    requires cats != [] && cats[|cats| - 1] !in cats[..|cats| - 1]
    ensures Admits(InCategories(products, cats), o) <==>
      Admits(InCategories(products, cats[..|cats| - 1]), o) || Admits(OfCategory(products, cats[|cats| - 1]), o)
    ensures !(Admits(InCategories(products, cats[..|cats| - 1]), o) && Admits(OfCategory(products, cats[|cats| - 1]), o))
  {
    assert cats == cats[..|cats| - 1] + [cats[|cats| - 1]];
  }

  /** Rows for distinct categories together hold the completed orders whose product falls
      in one of them. */
  lemma {:induction false} CategoryRowsForTotal(orders: seq<Order>, products: seq<Product>, cats: seq<string>)
    requires forall i, j :: 0 <= i < j < |cats| ==> cats[i] != cats[j]
    ensures CategoryRevenue(CategoryRowsFor(orders, products, cats))
      == SumTotals(Select(orders, InCategories(products, cats)))
    ensures CategoryOrderCount(CategoryRowsFor(orders, products, cats))
      == |Select(orders, InCategories(products, cats))|
  {
    if cats == [] {
      SelectNone(orders, InCategories(products, cats));
    } else {
      var n := |cats|;
      var init, last := cats[..n - 1], cats[n - 1];
      var rows := CategoryRowsFor(orders, products, cats);
      assert CategoryRevenue(rows) == CategoryRevenue(CategoryRowsFor(orders, products, init)) + rows[n - 1].revenue &&
        CategoryOrderCount(rows) == CategoryOrderCount(CategoryRowsFor(orders, products, init)) + rows[n - 1].orders by {
        assert rows[..n - 1] == CategoryRowsFor(orders, products, init);
      }
      assert rows[n - 1] == CategoryRow(orders, products, last);
      CategoryRowsForTotal(orders, products, init);
      var q, q1, q2 := InCategories(products, cats), InCategories(products, init), OfCategory(products, last);
      assert forall o :: o in orders ==> (Admits(q, o) <==> Admits(q1, o) || Admits(q2, o)) && !(Admits(q1, o) && Admits(q2, o)) by {
        assert last !in init by {
          forall i | 0 <= i < n - 1 ensures init[i] != last {
            assert init[i] == cats[i];
          }
        }
        forall o | o in orders
          ensures (Admits(q, o) <==> Admits(q1, o) || Admits(q2, o)) && !(Admits(q1, o) && Admits(q2, o))
        {
          InCategoriesSplit(products, cats, o);
        }
      }
      SelectSplit(orders, q, q1, q2);
    }
  }

  /** The category table accounts for every completed order whose product is found, once:
      rows sum to those orders' totals and counts. Orders with no product are skipped. */
  lemma CategorySalesCover(orders: seq<Order>, products: seq<Product>)
    requires KnownCategories(orders, products)
    ensures |CategoryRows(orders, products)| == |Categories|
    ensures CategoryRevenue(CategoryRows(orders, products)) == SumTotals(Select(orders, Resolvable(products)))
    ensures CategoryOrderCount(CategoryRows(orders, products)) == |Select(orders, Resolvable(products))|
  {
    CategoriesDistinct();
    CategoryRowsForTotal(orders, products, Categories);
    SelectSame(orders, InCategories(products, Categories), Resolvable(products));
  }

  /** An order that is not completed, or whose product is not found, changes no category
      row, wherever it stands. */
  lemma CategoryIgnores(a: seq<Order>, o: Order, b: seq<Order>, products: seq<Product>)
    requires o.status != Completed || FindProduct(products, o.productId).None?
    ensures CategoryRows(a + [o] + b, products) == CategoryRows(a + b, products)
  {
    forall c: string ensures Select(a + [o] + b, OfCategory(products, c)) == Select(a + b, OfCategory(products, c)) {
      SelectSkips(a, o, b, OfCategory(products, c));
    }
  }

  /** One completed Books order of 2 x 20: the Books row holds 40 and 1, every other row 0. */
  lemma CategorySalesExample(today: int)
    ensures
      var p := Product("p1", "Book", "", 20, "Books", 10, None, today, today, Amazon, 15);
      var o := Order("o1", "p1", "Book", 2, 20, 40, today, Completed, Amazon);
      var rows := CategoryRows([o], [p]);
      KnownCategories([o], [p]) &&
      |rows| == 7 && rows[5] == CategorySales("Books", 40, 1) &&
      forall k :: 0 <= k < 7 && k != 5 ==> rows[k] == CategorySales(Categories[k], 0, 0)
  {
    var p := Product("p1", "Book", "", 20, "Books", 10, None, today, today, Amazon, 15);
    var o := Order("o1", "p1", "Book", 2, 20, 40, today, Completed, Amazon);
    assert ProductCategory([p], o) == Some("Books");
    var rows := CategoryRows([o], [p]);
    forall k | 0 <= k < 7
      ensures rows[k] == if k == 5 then CategorySales("Books", 40, 1) else CategorySales(Categories[k], 0, 0)
    {
      CategoryRowOfOne(o, [p], Categories[k]);
      if k != 5 {
        assert Categories[k] != Categories[5] by { CategoriesDistinct(); }
      }
    }
    assert KnownCategories([o], [p]) by {
      assert Categories[5] == "Books";
    }
  }

  /** A single order lands in the row of its own category, if it is completed, and in no other. */
  lemma CategoryRowOfOne(o: Order, products: seq<Product>, c: string)
    ensures CategoryRow([o], products, c) ==
      if o.status == Completed && ProductCategory(products, o) == Some(c) then CategorySales(c, o.total, 1)
      else CategorySales(c, 0, 0)
  {
    SelectLast([], o, OfCategory(products, c));
    assert [] + [o] == [o];
  }

  // ---------------------------------------------------------------------------
  // Marketplace sales
  // ---------------------------------------------------------------------------

  const Marketplaces: seq<Channel> := [Amazon, Walmart]

  function MarketplaceRow(orders: seq<Order>, m: Channel): MarketplaceSales
  {
    var hits := Select(orders, Via(m));
    MarketplaceSales(m, SumTotals(hits), |hits|)
  }

  /** The marketplace table: Amazon, then Walmart. */
  function MarketplaceRows(orders: seq<Order>): seq<MarketplaceSales>
  {
    [MarketplaceRow(orders, Amazon), MarketplaceRow(orders, Walmart)]
  }

  /** `generateMarketplaceSales`: filters and sums once per marketplace, pushing each row. */
  method GenerateMarketplaceSales(orders: seq<Order>) returns (rows: seq<MarketplaceSales>)
    ensures rows == MarketplaceRows(orders)
  {
    rows := [];
    for k := 0 to |Marketplaces|
      invariant |rows| == k
      invariant forall j :: 0 <= j < k ==> rows[j] == MarketplaceRow(orders, Marketplaces[j])
    {
      var marketplace := Marketplaces[k];
      var marketplaceOrders := Select(orders, Via(marketplace));
      var revenue := SumTotals(marketplaceOrders);
      rows := rows + [MarketplaceSales(marketplace, revenue, |marketplaceOrders|)];
    }
  }

  /** The two rows together hold every completed order exactly once. */
  lemma MarketplaceSalesCover(orders: seq<Order>)
    ensures MarketplaceRows(orders)[0].revenue + MarketplaceRows(orders)[1].revenue
      == SumTotals(Select(orders, AnyCompleted))
    ensures MarketplaceRows(orders)[0].orders + MarketplaceRows(orders)[1].orders
      == |Select(orders, AnyCompleted)|
  {
    SelectSplit(orders, AnyCompleted, Via(Amazon), Via(Walmart));
  }

  /** A pending or cancelled order, wherever it stands, changes neither row. */
  lemma MarketplaceIgnoresIncomplete(a: seq<Order>, o: Order, b: seq<Order>)
    requires o.status != Completed
    ensures MarketplaceRows(a + [o] + b) == MarketplaceRows(a + b)
  {
    SelectSkips(a, o, b, Via(Amazon));
    SelectSkips(a, o, b, Via(Walmart));
  }

  // ---------------------------------------------------------------------------
  // Daily revenue of one category
  // ---------------------------------------------------------------------------

  function CategoryDayPoint(orders: seq<Order>, products: seq<Product>, category: string, d: int): RevenueData
  {
    var hits := Select(orders, OnDayOfCategory(products, category, d));
    RevenueData(Day(d), SumTotals(hits), |hits|, None, Some(category))
  }

  /** The daily series restricted to orders whose product is in `category`, each point tagged. */
  function CategoryDailySeries(orders: seq<Order>, products: seq<Product>, category: string, today: int): seq<RevenueData>
  {
    seq(Days, k => CategoryDayPoint(orders, products, category, today - (Days - 1) + k))
  }

  /** `getRevenueByCategory`: the daily loop with the product-category condition added. */
  method GetRevenueByCategory(orders: seq<Order>, products: seq<Product>, category: string, today: int)
    returns (r: seq<RevenueData>)
    ensures r == CategoryDailySeries(orders, products, category, today)
    ensures |r| == Days
    ensures forall k :: 0 <= k < Days ==>
      r[k].date == Day(today - (Days - 1) + k) && r[k].category == Some(category)
  {
    var result: seq<RevenueData> := [];
    for i := 0 to Days
      invariant |result| == i
      invariant forall j :: 0 <= j < i ==> result[j] == CategoryDayPoint(orders, products, category, today - j)
    {
      var date := today - i;
      var dayOrders := Select(orders, OnDayOfCategory(products, category, date));
      var dayRevenue := SumTotals(dayOrders);
      result := result + [RevenueData(Day(date), dayRevenue, |dayOrders|, None, Some(category))];
    }
    r := Reversed(result);
  }

  /** Each category point is bounded by the unfiltered point of the same day. */
  lemma CategoryDailyWithinDaily(orders: seq<Order>, products: seq<Product>, category: string, today: int)
    ensures forall k :: 0 <= k < Days ==>
      CategoryDailySeries(orders, products, category, today)[k].date == DailySeries(orders, today)[k].date &&
      CategoryDailySeries(orders, products, category, today)[k].orders <= DailySeries(orders, today)[k].orders
    ensures (forall o :: o in orders ==> o.total >= 0) ==>
      forall k :: 0 <= k < Days ==>
        CategoryDailySeries(orders, products, category, today)[k].revenue <= DailySeries(orders, today)[k].revenue
  {
    var filtered, daily := CategoryDailySeries(orders, products, category, today), DailySeries(orders, today);
    forall k | 0 <= k < Days ensures
      filtered[k].date == daily[k].date && filtered[k].orders <= daily[k].orders &&
      ((forall o :: o in orders ==> o.total >= 0) ==> filtered[k].revenue <= daily[k].revenue)
    {
      var d := today - (Days - 1) + k;
      assert filtered[k] == CategoryDayPoint(orders, products, category, d);
      assert daily[k] == DailyPoint(orders, d);
      SelectNarrower(orders, OnDayOfCategory(products, category, d), OnDay(d));
    }
  }

  /** An order that is not completed, or whose product is not found, changes no point. */
  lemma CategoryDailyIgnores(a: seq<Order>, o: Order, b: seq<Order>, products: seq<Product>, category: string, today: int)
    requires o.status != Completed || FindProduct(products, o.productId).None?
    ensures CategoryDailySeries(a + [o] + b, products, category, today)
      == CategoryDailySeries(a + b, products, category, today)
  {
    var kept, dropped := CategoryDailySeries(a + [o] + b, products, category, today), CategoryDailySeries(a + b, products, category, today);
    forall k | 0 <= k < Days ensures kept[k] == dropped[k] {
      var d := today - (Days - 1) + k;
      assert kept[k] == CategoryDayPoint(a + [o] + b, products, category, d);
      assert dropped[k] == CategoryDayPoint(a + b, products, category, d);
      SelectSkips(a, o, b, OnDayOfCategory(products, category, d));
    }
  }

  /** With no orders every one of the 30 category points is zero, and still tagged. */
  lemma CategoryDailyOfNoOrders(products: seq<Product>, category: string, today: int)
    ensures |CategoryDailySeries([], products, category, today)| == Days
    ensures forall k :: 0 <= k < Days ==>
      CategoryDailySeries([], products, category, today)[k].revenue == 0 &&
      CategoryDailySeries([], products, category, today)[k].orders == 0 &&
      CategoryDailySeries([], products, category, today)[k].category == Some(category)
  {
    forall k | 0 <= k < Days
      ensures CategoryDailySeries([], products, category, today)[k].revenue == 0 &&
        CategoryDailySeries([], products, category, today)[k].orders == 0 &&
        CategoryDailySeries([], products, category, today)[k].category == Some(category)
    {
      assert CategoryDailySeries([], products, category, today)[k] ==
        CategoryDayPoint([], products, category, today - (Days - 1) + k);
    }
  }
}

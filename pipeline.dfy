/** The generated dataset fed to the aggregators, as the module wires them together:
    products, then orders drawn from those products, then the tables and series. */
module Pipeline {
  import opened Types
  import opened Generator
  import opened Aggregator

  /** Every generated order refers to a generated product, so every completed order reaches
      the category fold and none can make it throw. */
  lemma GeneratedOrdersResolve(pd: seq<ProductDraw>, od: seq<OrderDraw>, today: int)
    requires pd != [] || od == []
    ensures var products := GenerateProducts(pd, today);
      var orders := GenerateOrders(products, od, today);
      KnownCategories(orders, products) &&
      forall o :: o in orders ==> ProductCategory(products, o).Some?
  {
    var products := GenerateProducts(pd, today);
    var orders := GenerateOrders(products, od, today);
    forall o | o in orders
      ensures ProductCategory(products, o).Some? && ProductCategory(products, o).value in Categories
    {
      var j :| 0 <= j < |products| && OrderedFrom(o, products[j]);
      var found := FindProduct(products, o.productId);
      FindProductFirst(products, o.productId);
      assert found.Some?;
      var i :| 0 <= i < |products| && products[i] == found.value;
      assert products[i] in products;
    }
  }

  /** When every order's product is found and known, the category table and the marketplace
      table both add up to all completed orders. */
  lemma TablesAgree(orders: seq<Order>, products: seq<Product>)
    requires KnownCategories(orders, products)
    requires forall o :: o in orders ==> ProductCategory(products, o).Some?
    ensures var completed := Select(orders, AnyCompleted);
      CategoryRevenue(CategoryRows(orders, products)) == SumTotals(completed) &&
      CategoryOrderCount(CategoryRows(orders, products)) == |completed| &&
      MarketplaceRows(orders)[0].revenue + MarketplaceRows(orders)[1].revenue == SumTotals(completed) &&
      MarketplaceRows(orders)[0].orders + MarketplaceRows(orders)[1].orders == |completed|
  {
    var completed := Select(orders, AnyCompleted);
    assert Select(orders, Resolvable(products)) == completed by {
      SelectSame(orders, Resolvable(products), AnyCompleted);
    }
    assert CategoryRevenue(CategoryRows(orders, products)) == SumTotals(completed) &&
      CategoryOrderCount(CategoryRows(orders, products)) == |completed| by {
      CategorySalesCover(orders, products);
    }
    MarketplaceSalesCover(orders);
  }

  /** On generated data the two tables agree with each other and with the completed orders. */
  lemma GeneratedTotalsAgree(pd: seq<ProductDraw>, od: seq<OrderDraw>, today: int)
    requires pd != [] || od == []
    ensures var products := GenerateProducts(pd, today);
      var orders := GenerateOrders(products, od, today);
      var completed := Select(orders, AnyCompleted);
      CategoryRevenue(CategoryRows(orders, products)) == SumTotals(completed) &&
      CategoryOrderCount(CategoryRows(orders, products)) == |completed| &&
      MarketplaceRows(orders)[0].revenue + MarketplaceRows(orders)[1].revenue == SumTotals(completed) &&
      MarketplaceRows(orders)[0].orders + MarketplaceRows(orders)[1].orders == |completed|
  {
    GeneratedOrdersResolve(pd, od, today);
    TablesAgree(GenerateOrders(GenerateProducts(pd, today), od, today), GenerateProducts(pd, today));
  }

  /** Orders dated from `today - 30` to `today`, one day more than the daily series covers:
      the series holds every completed order except those dated `today - 30`. */
  lemma DailyMissesOldestDay(orders: seq<Order>, today: int)
    requires forall o :: o in orders ==> today - 30 <= o.date <= today
    ensures Revenue(DailySeries(orders, today)) + SumTotals(Select(orders, OnDay(today - 30)))
      == SumTotals(Select(orders, AnyCompleted))
    ensures OrderCount(DailySeries(orders, today)) + |Select(orders, OnDay(today - 30))|
      == |Select(orders, AnyCompleted)|
  {
    DailyWindowTotal(orders, today);
    var q, q1, q2 := AnyCompleted, InWindow(today - (Days - 1), today), OnDay(today - 30);
    assert forall o :: o in orders ==> (Admits(q, o) <==> Admits(q1, o) || Admits(q2, o));
    assert forall o :: o in orders ==> !(Admits(q1, o) && Admits(q2, o));
    SelectSplit(orders, q, q1, q2);
  }

  /** Generated orders are dated up to 30 days back, so the daily series of generated orders
      misses those dated `today - 30`. */
  lemma GeneratedDailyTotal(products: seq<Product>, od: seq<OrderDraw>, today: int)
    requires products != [] || od == []
    ensures var orders := GenerateOrders(products, od, today);
      Revenue(DailySeries(orders, today)) + SumTotals(Select(orders, OnDay(today - 30)))
        == SumTotals(Select(orders, AnyCompleted)) &&
      OrderCount(DailySeries(orders, today)) + |Select(orders, OnDay(today - 30))|
        == |Select(orders, AnyCompleted)|
  {
    DailyMissesOldestDay(GenerateOrders(products, od, today), today);
  }
}

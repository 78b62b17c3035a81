/** The mock-data generator: products and orders built from random picks.
    Every call of `Math.random` is supplied as a `draw: nat`, and `today` is the day number
    `new Date()` would give. */
module Generator {
  import opened Types
  import opened Decimal

  /** The known product categories, in display order. */
  const Categories: seq<string> :=
    ["Electronics", "Clothing", "Home & Kitchen", "Beauty", "Sports", "Books", "Toys"]

  const ProductMarketplaces: seq<Marketplace> := [Amazon, Walmart, Both]
  const OrderChannels: seq<Channel> := [Amazon, Walmart]
  const Statuses: seq<Status> := [Completed, Pending, Cancelled]
  const LowStockThreshold := 15

  lemma CategoriesDistinct()
    ensures forall i, j :: 0 <= i < j < |Categories| ==> Categories[i] != Categories[j]
  {
  }

  /** `randomNumber(min, max)`: a uniform whole-number pick in `[min, max]`. The pick is the
      offset `draw` reduced modulo the range size and added to `min`, so every natural is a
      draw and every value of the range is reached. */
  function RandomNumber(min: int, max: int, draw: nat): (r: int)
    requires min <= max
    ensures min <= r <= max
  {
    min + draw % (max - min + 1)
  }

  /** Every value of the range is the outcome of some draw. */
  lemma RandomNumberReaches(min: int, max: int, r: int)
    requires min <= r <= max
    ensures RandomNumber(min, max, r - min) == r
  {
  }

  /** `randomDate(daysBack)`: the day `randomNumber(0, daysBack)` days before today. */
  function RandomDate(today: int, daysBack: nat, draw: nat): (d: int)
    ensures today - daysBack <= d <= today
  {
    today - RandomNumber(0, daysBack, draw)
  }

  /** The six picks made for one product, in the order the source makes them. */
  datatype ProductDraw = ProductDraw(
    category: nat, marketplace: nat, price: nat, stock: nat, createdAt: nat, updatedAt: nat)

  /** The five picks made for one order. */
  datatype OrderDraw = OrderDraw(product: nat, quantity: nat, marketplace: nat, date: nat, status: nat)

  function ProductId(n: nat): string
  {
    "prod-" + Digits(n)
  }

  function OrderId(n: nat): string
  {
    "order-" + Digits(n)
  }

  /** The product at position `index` (numbered `index + 1`). */
  function MakeProduct(index: nat, d: ProductDraw, today: int): Product
  {
    var category := Categories[RandomNumber(0, |Categories| - 1, d.category)];
    var marketplace := ProductMarketplaces[RandomNumber(0, 2, d.marketplace)];
    Product(
      id := ProductId(index + 1),
      name := category + " Product " + Digits(index + 1),
      description := "This is a description for " + category + " Product " + Digits(index + 1),
      price := RandomNumber(10, 200, d.price),
      category := category,
      stockLevel := RandomNumber(0, 100, d.stock),
      image := Some("https://picsum.photos/seed/" + Digits(index + 100) + "/200/200"),
      createdAt := RandomDate(today, 90, d.createdAt),
      updatedAt := RandomDate(today, 30, d.updatedAt),
      marketplace := marketplace,
      lowStockThreshold := LowStockThreshold)
  }

  /** `generateProducts(count)` with `count == |draws|`. */
  function GenerateProducts(draws: seq<ProductDraw>, today: int): (ps: seq<Product>)
    ensures |ps| == |draws|
    ensures forall k :: 0 <= k < |ps| ==> ps[k].id == ProductId(k + 1)
    ensures forall p :: p in ps ==>
      p.category in Categories && 10 <= p.price <= 200 && 0 <= p.stockLevel <= 100 &&
      p.lowStockThreshold == 15 &&
      today - 90 <= p.createdAt <= today && today - 30 <= p.updatedAt <= today
  {
    seq(|draws|, k requires 0 <= k < |draws| => MakeProduct(k, draws[k], today))
  }

  /** The ids `prod-1 .. prod-count` are pairwise distinct. */
  lemma ProductIdsUnique(draws: seq<ProductDraw>, today: int)
    ensures forall i, j :: 0 <= i < j < |draws| ==>
      GenerateProducts(draws, today)[i].id != GenerateProducts(draws, today)[j].id
  {
    var ps := GenerateProducts(draws, today);
    var ids := seq(|ps|, k requires 0 <= k < |ps| => ps[k].id);
    forall k | 0 <= k < |ids| ensures ids[k] == "prod-" + Digits(k + 1) {
      assert ps[k].id == ProductId(k + 1);
    }
    NumberedIdsUnique(ids, "prod-");
    forall i, j | 0 <= i < j < |ps| ensures ps[i].id != ps[j].id {
      assert ids[i] == ps[i].id && ids[j] == ps[j].id;
    }
  }

  /** Ids numbered `prefix1, prefix2, ...` by position are pairwise distinct. */
  lemma NumberedIdsUnique(ids: seq<string>, prefix: string)
    requires forall k :: 0 <= k < |ids| ==> ids[k] == prefix + Digits(k + 1)
    ensures forall i, j :: 0 <= i < j < |ids| ==> ids[i] != ids[j]
  {
    forall i, j | 0 <= i < j < |ids| ensures ids[i] != ids[j] {
      if ids[i] == ids[j] {
        PrefixedDigitsInjective(prefix, i + 1, j + 1);
      }
    }
  }

  /** What an order copies from the product it was drawn from. */
  predicate OrderedFrom(o: Order, p: Product)
  {
    o.productId == p.id && o.productName == p.name && o.price == p.price &&
    (p.marketplace != Both ==> o.marketplace == p.marketplace)
  }

  /** The order at position `index`; a product listed on `Both` is sold on one channel. */
  function MakeOrder(products: seq<Product>, index: nat, d: OrderDraw, today: int): (o: Order)
    requires products != []
    ensures exists j :: 0 <= j < |products| && OrderedFrom(o, products[j])
  {
    var j := RandomNumber(0, |products| - 1, d.product);
    var product := products[j];
    var quantity := RandomNumber(1, 5, d.quantity);
    var marketplace: Channel :=
      if product.marketplace == Both then OrderChannels[RandomNumber(0, 1, d.marketplace)]
      else product.marketplace;
    var o := Order(
      id := OrderId(index + 1),
      productId := product.id,
      productName := product.name,
      quantity := quantity,
      price := product.price,
      total := product.price * quantity,
      date := RandomDate(today, 30, d.date),
      status := Statuses[RandomNumber(0, 2, d.status)],
      marketplace := marketplace);
    assert OrderedFrom(o, products[j]);
    o
  }

  /** `generateOrders(products, count)` with `count == |draws|`. With no products and a
      positive count the source reads a field of `undefined` and throws. */
  function GenerateOrders(products: seq<Product>, draws: seq<OrderDraw>, today: int): (os: seq<Order>)
    requires products != [] || draws == []
    ensures |os| == |draws|
    ensures forall k :: 0 <= k < |os| ==> os[k].id == OrderId(k + 1)
    ensures forall o :: o in os ==>
      (exists j :: 0 <= j < |products| && OrderedFrom(o, products[j])) &&
      1 <= o.quantity <= 5 && o.total == o.price * o.quantity &&
      today - 30 <= o.date <= today
  {
    seq(|draws|, k requires 0 <= k < |draws| => MakeOrder(products, k, draws[k], today))
  }

  /** The ids `order-1 .. order-count` are pairwise distinct. */
  lemma OrderIdsUnique(products: seq<Product>, draws: seq<OrderDraw>, today: int)
    requires products != [] || draws == []
    ensures forall i, j :: 0 <= i < j < |draws| ==>
      GenerateOrders(products, draws, today)[i].id != GenerateOrders(products, draws, today)[j].id
  {
    var os := GenerateOrders(products, draws, today);
    var ids := seq(|os|, k requires 0 <= k < |os| => os[k].id);
    forall k | 0 <= k < |ids| ensures ids[k] == "order-" + Digits(k + 1) {
      assert os[k].id == OrderId(k + 1);
    }
    NumberedIdsUnique(ids, "order-");
    forall i, j | 0 <= i < j < |os| ensures os[i].id != os[j].id {
      assert ids[i] == os[i].id && ids[j] == os[j].id;
    }
  }
}

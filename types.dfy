/** The record shapes of the dashboard: products, orders and the derived rows the charts plot.
    Timestamps are whole day numbers (the ISO strings' calendar-day part); amounts are integers. */
module Types {

  /** A value the source leaves `undefined` (an optional field, a failed `find`). */
  datatype Option<+T> = None | Some(value: T)

  /** Where a product is listed. */
  datatype Marketplace = Amazon | Walmart | Both

  /** Where an order was placed: never `Both`. */
  type Channel = m: Marketplace | m != Both witness Amazon

  datatype Status = Completed | Pending | Cancelled

  datatype Product = Product(
    id: string,
    name: string,
    description: string,
    price: int,
    category: string,
    stockLevel: int,
    image: Option<string>,
    createdAt: int,
    updatedAt: int,
    marketplace: Marketplace,
    lowStockThreshold: int)

  datatype Order = Order(
    id: string,
    productId: string,
    productName: string,
    quantity: int,
    price: int,
    total: int,
    date: int,
    status: Status,
    marketplace: Channel)

  /** The `date` label of a revenue point: a calendar day, or a week label `Week n`. */
  datatype Period = Day(day: int) | Week(number: int)

  datatype RevenueData = RevenueData(
    date: Period,
    revenue: int,
    orders: int,
    marketplace: Option<Channel>,
    category: Option<string>)

  datatype CategorySales = CategorySales(category: string, revenue: int, orders: int)

  datatype MarketplaceSales = MarketplaceSales(marketplace: Channel, revenue: int, orders: int)
}

# Revenue aggregation and mock data of an e-commerce dashboard

This project models the data layer of a client-side e-commerce analytics dashboard
(`src/mockData/mockData.ts`, with the record shapes of `src/types/index.ts`). A generator
builds synthetic products and orders. An aggregator folds them into the series and
tables the charts show:

- a 30-day daily revenue series;
- a 4-point weekly series cut from the daily one;
- one sales row per product category;
- one sales row per marketplace (Amazon, Walmart);
- a daily series restricted to one category.

Only `completed` orders count anywhere.

Modules and files:

- `Types` (`types.dfy`): `Product`, `Order`, `RevenueData`, `CategorySales`,
  `MarketplaceSales`. A product's marketplace is `Amazon | Walmart | Both`. An order's
  marketplace has the subset type `Channel`, which excludes `Both`. Timestamps are integer
  day numbers. Amounts are integers.
- `Sequences` (`sequences.dfy`): `reverse` and `slice` as the aggregators use them.
- `Decimal` (`decimal.dfy`): the decimal numeral a template literal writes for a number,
  and its injectivity. The ids `prod-N` and `order-N` are distinct because of it.
- `Generator` (`generator.dfy`): `categories`, `randomNumber`, `randomDate`,
  `generateProducts` and `generateOrders`. These are pure functions. Every `Math.random`
  call is an input `draw: nat`, and "now" is an input `today`.
- `Aggregator` (`aggregator.dfy`): the five aggregations. Each one is a method with the
  source's loop and accumulator, and its `ensures` equates the result with a reference
  function (`DailySeries`, `WeeklySeries`, `CategoryRows`, `MarketplaceRows`,
  `CategoryDailySeries`). The lemmas state what those functions guarantee.
  - Each `filter` callback is a `Query` that `Admits` an order. `Select` is the filter;
    every query requires `completed`.
  - `products.find` is `FindProduct`.
  - The `Record` accumulator of the category fold is a `map<string, Tally>`.
- `Pipeline` (`pipeline.dfy`): what holds when generated orders drawn from generated
  products are fed to the aggregators.

Behaviour worth knowing:

- Weekly labels. The oldest 7-day window (daily positions 0..6) is labelled `Week 4`.
  After the reverse, `Week 1` (positions 21..27) comes first. Only daily positions 0..27
  are counted, so yesterday and today never reach any week (`WeeklyOfDailySeries`).
- Order dates. `randomDate(30)` can date an order 30 days back. The daily series covers
  only the 30 days `today - 29 .. today`, so such orders appear in no daily point
  (`GeneratedDailyTotal`).

## Model

| member | source | states |
|---|---|---|
| Sequences.Reversed | src/mockData/mockData.ts:89 | `reverse()` keeps the length and puts element `k` at position `n - 1 - k` |
| Sequences.Slice | src/mockData/mockData.ts:97 | `slice(begin, end)` clamps both bounds to the length; the result is the elements from `begin` on, and empty when the window starts at or past the end |
| Decimal.DigitChar | src/mockData/mockData.ts:30 | the character written for a digit is the one whose code is `'0'` plus that digit |
| Decimal.DigitsInjective | src/mockData/mockData.ts:30 | distinct numbers give distinct decimal numerals |
| Decimal.PrefixedDigitsInjective | src/mockData/mockData.ts:54 | two ids built from one prefix are equal only when their numbers are |
| Generator.CategoriesDistinct | src/mockData/mockData.ts:12-20 | the seven known categories are pairwise distinct |
| Generator.RandomNumber | src/mockData/mockData.ts:3-4 | the result lies in `[min, max]` for every draw |
| Generator.RandomNumberReaches | src/mockData/mockData.ts:3-4 | every value of `[min, max]` is the outcome of some draw |
| Generator.RandomDate | src/mockData/mockData.ts:6-10 | the date lies between `daysBack` days ago and today |
| Generator.GenerateProducts | src/mockData/mockData.ts:22-43 | `count` products numbered `prod-1 .. prod-count`; category one of the known ones, price in [10,200], stock in [0,100], threshold 15, created within 90 and updated within 30 days |
| Generator.ProductIdsUnique | src/mockData/mockData.ts:30 | generated product ids are pairwise distinct |
| Generator.NumberedIdsUnique | src/mockData/mockData.ts:30 | ids made of one prefix and the position plus one are pairwise distinct |
| Generator.MakeOrder | src/mockData/mockData.ts:47-62 | the order copies id, name and price from some product of the list, and its marketplace is that product's unless the product is listed on `Both` |
| Generator.GenerateOrders | src/mockData/mockData.ts:45-65 | `count` orders `order-1 .. order-count`; each is drawn from a product of the list, quantity in [1,5], `total == price * quantity`, dated within the last 30 days, marketplace never `Both` |
| Generator.OrderIdsUnique | src/mockData/mockData.ts:54 | generated order ids are pairwise distinct |
| Aggregator.FindProductFirst | src/mockData/mockData.ts:143 | `None` exactly when no product has the id; otherwise the first product with that id |
| Aggregator.SelectMembers | src/mockData/mockData.ts:76-78 | a filter keeps exactly the admitted orders of the list |
| Aggregator.SumTotalsAppend | src/mockData/mockData.ts:80 | the sum of totals over a concatenation is the sum of the two parts' sums |
| Aggregator.SelectAppend | src/mockData/mockData.ts:76-78 | filtering a concatenation filters each part |
| Aggregator.SelectLast | src/mockData/mockData.ts:76-80 | one more order at the end is kept, and adds its total and one to the count, exactly when admitted |
| Aggregator.SelectSkips | src/mockData/mockData.ts:76-78 | an order the filter does not admit can be removed from anywhere without changing the result |
| Aggregator.SelectNone | src/mockData/mockData.ts:76-78 | a filter that admits no order of the list gives the empty list |
| Aggregator.SelectSame | src/mockData/mockData.ts:191-198 | two filters that admit the same orders select the same list |
| Aggregator.SelectSplit | src/mockData/mockData.ts:163-166 | a filter that is the disjoint union of two others selects their combined sum and count |
| Aggregator.SelectNarrower | src/mockData/mockData.ts:191-200 | a stricter filter keeps no more orders, and no more revenue when totals are non-negative |
| Aggregator.RevenueAppend | src/mockData/mockData.ts:98-99 | revenue and order sums over a concatenation of points add up |
| Aggregator.RevenueSingle | src/mockData/mockData.ts:98-99 | the sums over one point are that point's revenue and orders |
| Aggregator.GenerateDailyRevenueData | src/mockData/mockData.ts:67-90 | built newest first and reversed, the result is the 30 points of days `today - 29 .. today` in ascending order, the last one today; each point holds the sum and count of that day's completed orders |
| Aggregator.DaySpanTotal | src/mockData/mockData.ts:71-86 | consecutive daily points together hold exactly the completed orders dated inside their span |
| Aggregator.DailyWindowTotal | src/mockData/mockData.ts:71-86 | the 30 points together hold every completed order of the window once |
| Aggregator.DailyIgnoresIncomplete | src/mockData/mockData.ts:76-78 | a pending or cancelled order, anywhere in the list, changes no daily point |
| Aggregator.DailyOfNoOrders | src/mockData/mockData.ts:67-90 | no orders give 30 zero points |
| Aggregator.GenerateWeeklyRevenueData | src/mockData/mockData.ts:92-109 | 4 points labelled `Week 1 .. Week 4` in output order; `Week n` sums revenue and orders over daily positions `(4-n)*7 .. (5-n)*7` |
| Aggregator.WeekWindowsCover | src/mockData/mockData.ts:96-97 | the four windows laid end to end are the first 28 daily points, or the whole input if shorter |
| Aggregator.WeeklyTotal | src/mockData/mockData.ts:96-106 | the weekly points sum exactly the first 28 daily points |
| Aggregator.WeeklyIgnoresTail | src/mockData/mockData.ts:97 | daily points from position 28 on never affect the weekly series |
| Aggregator.WeeklyShortInput | src/mockData/mockData.ts:97-99 | a window starting past the end of a short input is a zero point |
| Aggregator.WeeklyOfDailySeries | src/mockData/mockData.ts:215-216 | on the daily series, the weeks cover the completed orders of days `today - 29 .. today - 2`; yesterday and today are dropped |
| Aggregator.TallyStep | src/mockData/mockData.ts:141-148 | one fold step adds a completed, found order's total and one to its category's entry and leaves the other entries alone |
| Aggregator.GenerateCategorySales | src/mockData/mockData.ts:134-156 | one row per known category, in order, holding the sum and count of its completed orders (zero rows included); requires that every found product of a completed order has a known category |
| Aggregator.CategoryRowsForTotal | src/mockData/mockData.ts:141-148 | rows for distinct categories together hold the completed orders whose product falls in one of them |
| Aggregator.CategoryRowOfOne | src/mockData/mockData.ts:141-148 | a single order adds its total and one to the row of its own category when it is completed and its product is found, and nothing to any other row |
| Aggregator.CategorySalesCover | src/mockData/mockData.ts:137-155 | 7 rows whose revenue and orders sum to the totals and count of completed orders whose product is found; unresolved orders are skipped |
| Aggregator.CategoryIgnores | src/mockData/mockData.ts:142-144 | an order that is not completed or has no product changes no row |
| Aggregator.CategorySalesExample | src/mockData/mockData.ts:134-156 | one completed Books order of 2 x 20 gives Books 40 / 1 and zero in every other row |
| Aggregator.GenerateMarketplaceSales | src/mockData/mockData.ts:158-176 | two rows, Amazon then Walmart, each the sum and count of completed orders of that marketplace |
| Aggregator.MarketplaceSalesCover | src/mockData/mockData.ts:159-175 | the two rows together hold every completed order exactly once |
| Aggregator.MarketplaceIgnoresIncomplete | src/mockData/mockData.ts:163-165 | a pending or cancelled order changes neither row |
| Aggregator.GetRevenueByCategory | src/mockData/mockData.ts:178-211 | 30 ascending points of days `today - 29 .. today`, each tagged with the category and holding the completed orders of that day whose found product has that category |
| Aggregator.CategoryDailyWithinDaily | src/mockData/mockData.ts:191-205 | each category point has the same day as the unfiltered point and no more orders, and no more revenue when totals are non-negative |
| Aggregator.CategoryDailyIgnores | src/mockData/mockData.ts:191-197 | an order that is not completed or whose product is not found changes no point |
| Aggregator.CategoryDailyOfNoOrders | src/mockData/mockData.ts:178-211 | no orders give 30 zero points, each still tagged with the category |
| Pipeline.GeneratedOrdersResolve | src/mockData/mockData.ts:213-214 | every generated order's product is found and has a known category, so the category fold cannot throw |
| Pipeline.TablesAgree | src/mockData/mockData.ts:219-220 | when every order's product is found and known, both tables sum to the completed orders |
| Pipeline.GeneratedTotalsAgree | src/mockData/mockData.ts:213-220 | on generated data the category and marketplace tables agree with each other and with all completed orders |
| Pipeline.GeneratedDailyTotal | src/mockData/mockData.ts:60 | the daily series of generated orders holds every completed order except those dated 30 days back |

## Left out

- `generateMonthlyRevenueData` and `generateAnnualRevenueData`: purely random series derived from no order, so there is nothing to state beyond value ranges.
- The random distributions: each `Math.random()` outcome is an input draw, so the model states what holds for every outcome, not how likely each one is.
- `Date` arithmetic and ISO strings: dates are integer day numbers with an explicit `today`. The mismatch between local-time `setDate` and the UTC `toISOString` day is not captured.
- The time of day of an order: only its calendar day is kept, which is all the aggregators compare.
- JavaScript `number` floating point: prices, quantities and totals are integers.
- The module-level exports (`src/mockData/mockData.ts:213-231`), evaluated once at import time. `Pipeline` states their composition as lemmas, with the inputs made explicit.
- Aggregator.GenerateCategorySales: requires every found product of a completed order to have a known category. For another category the accumulator `categorySales` (a plain object) has no own entry, and the source takes one of two paths, neither of which is modelled. For most names it reads a field of `undefined` and throws a `TypeError`. For a name that is inherited from `Object.prototype` (`constructor`, `toString`, `__proto__`, ...), it writes `NaN` onto the inherited object without throwing, and `Object.entries` does not list it, so the order is dropped silently.
- Generator.GenerateOrders: requires a non-empty product list when orders are requested. With no products the source reads `products[0]`, gets `undefined`, and throws; that path is not modelled. The `count = 200` default is not modelled either: the count is the number of draws supplied.
- Generator.GenerateProducts: the `count = 50` default is not modelled. The count is the number of draws supplied, so a count of zero or less is the empty draw list.
- Determinism: every member is a function of its inputs, so calling an aggregation twice on the same inputs and the same `today` gives the same output by construction. No lemma states this.
- The UI pages, layout, authentication context and routing: they only render or navigate.

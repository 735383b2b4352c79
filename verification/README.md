# Point-of-sale stores, modelled in Dafny

This project models the state and the computations of a small point-of-sale
app for La Réunion. It covers five parts:

- **The cart** (`CartLedger`, `cart.dfy`). Lines are keyed by product id.
  Each carries a quantity, a tax-inclusive subtotal and the VAT that the
  subtotal contains. The store offers add, remove, delete, set-quantity and
  clear. Totals are derived from the lines, and the payment turns the cart
  into a recorded transaction or fails on an empty cart.
- **The transaction history and its dashboard** (`Transactions`,
  `transactions.dfy`):
  - the append-only store and its day and window filters;
  - the day-over-day revenue comparison and the average ticket;
  - the 17-bucket hourly histogram for hours 6 to 22;
  - the ten best-selling products;
  - the stock alerts and their order.
- **The traffic analysis**:
  - `Traffic` (`traffic.dfy`) has the average number of customers of each
    opening hour over the days that saw that hour busy, and each hour's
    level against the busiest hour. It also has the average per hour and
    the busiest and quietest days of the week.
  - `Staffing` (`staffing.dfy`) collapses consecutive hours of one level
    into staff recommendations.
- **The demo-data generator's arithmetic** (`Demo`, `demo.dfy`): the
  weighted hour sampler, and the lines, totals and cash of one demo sale.
  The random draws are parameters.
- **The catalog, the accounts and the login session** (`Products`,
  `products.dfy`; `Auth`, `auth.dfy`). Both have id-scoped list updates, and
  stock is clamped at zero. There are active and category filters, and a PIN
  login that sets or keeps the current user. Permissions come from the user's
  role.

Supporting modules:

- `Types` (`types.dfy`) holds the records, the VAT rates and the role table.
- `Wrappers` (`wrappers.dfy`) holds `Option` and `Result`.
- `Listing` (`listing.dfy`) holds the array idioms the stores use: `map` on
  matching entries, `filter` and `find`. It also holds the last-element view
  of a list, on which the loop specifications are defined.

How the model is written:

- Money, rates and averages are `real`, so arithmetic is exact.
- A time stamp is a record of an instant, a calendar day, an hour and a
  weekday. "Today", "yesterday" and the traffic cutoff are parameters.
- Each store is a class with a list field. Every mutator is specified by a
  pure function of the old list, and the lemmas about those functions state
  what the source promises.
- The loops of the analytics are methods whose loop invariants tie the
  running state to those functions:
  - `CalculateHourlyData`, `CalculateTopProducts` and `CalculateStockAlerts`;
  - the day-by-hour tallies and the weekday counts;
  - `GenerateStaffRecommendations` and `GetWeightedHour`.

The code has no special case for a busiest hour with zero customers. With no
sales in the window, every hour has average 0, and `0 >= 0 * 0.7` holds. So
every hour is "high", and there is one recommendation, from 6h to 23h with
three staff. The model follows the code (`Traffic.NoTrafficAllHigh`).

## Model

| member | source | states |
|---|---|---|
| Types.VatRate.Percent | src/lib/types/index.ts:36-39 | a VAT rate is a positive percentage |
| Types.VatRateValues | src/lib/types/index.ts:39 | a rate is 2.1 or 8.5 and nothing else, and the two differ |
| Types.VatInfoOf | src/lib/types/index.ts:48-59 | the entry of `VAT_RATES` for a rate carries that rate |
| Types.RolePermissionRows | src/lib/types/index.ts:146-179 | the owner holds every permission; the secretary holds dashboard, products and remote viewing but not settings or employees; an employee holds none; so employee ⊆ secretary ⊆ owner |
| CartLedger.VatBackedOut | src/lib/stores/cart.ts:31 | the VAT backed out of a tax-inclusive amount leaves a net amount that, taxed again, gives the amount back; for a non-negative amount the VAT lies between 0 and the amount |
| CartLedger.VatIncludedAdditive | src/lib/stores/cart.ts:101-102 | the VAT of a sum is the sum of the VATs |
| CartLedger.Find | src/lib/stores/cart.ts:15 | the index of the first line of the product, or none exactly when no line has it |
| CartLedger.Deleted | src/lib/stores/cart.ts:68 | deleting an absent product leaves the lines unchanged |
| CartLedger.DeletedAt | src/lib/stores/cart.ts:68 | deleting the product's only line removes exactly that line and keeps the others in order |
| CartLedger.DeletedWellFormed | src/lib/stores/cart.ts:66-69 | deletion keeps quantities ≥ 1, product ids unique and every line consistent |
| CartLedger.SteppedAt | src/lib/stores/cart.ts:19-28 | a quantity change touches only the product's line, recomputing its subtotal and VAT |
| CartLedger.RelinedAt | src/lib/stores/cart.ts:76-85 | setting a quantity touches only the product's line, recomputing its subtotal and VAT |
| CartLedger.Added | src/lib/stores/cart.ts:13-40 | a present product's line gets one more unit with its subtotal and VAT recomputed, all else unchanged; an absent one gets a new last line of quantity 1, subtotal = price and VAT = price·rate/(100+rate); well-formedness is kept |
| CartLedger.Removed | src/lib/stores/cart.ts:43-64 | an absent id changes nothing; a line of quantity > 1 loses one unit with its amounts recomputed; a line of quantity 1 is deleted; well-formedness is kept |
| CartLedger.QuantitySet | src/lib/stores/cart.ts:72-87 | n ≤ 0 is exactly deletion; an absent id changes nothing; n > 0 sets that line's quantity and recomputes it, all else unchanged; well-formedness is kept |
| CartLedger.RemovingEveryUnitDeletes | src/lib/stores/cart.ts:43-69 | removing a line of quantity q q times is the same as deleting it |
| CartLedger.Totals | src/lib/stores/cart.ts:100-112 | the view keeps the lines, pre-tax subtotal + VAT = total, and every total is 0 on an empty cart |
| CartLedger.SumsSplit | src/lib/stores/cart.ts:101-103 | the subtotal, VAT and quantity sums of a concatenation add up |
| CartLedger.PreTaxAgrees | src/lib/stores/cart.ts:100-106 | when every line's amounts agree with its quantity, total less VAT is the sum of every line net of its own rate |
| CartLedger.VatBounded | src/lib/stores/cart.ts:100-102 | lines of at least one unit at non-negative prices carry a VAT between 0 and their subtotal, and at least one unit each |
| CartLedger.TotalsReconcile | src/lib/stores/cart.ts:100-112 | for a well-formed cart, the pre-tax subtotal is the sum of each line's net amount, 0 ≤ VAT ≤ total, and the item count is at least the number of lines |
| CartLedger.LineStep | src/lib/stores/cart.ts:24-25 | one more unit on a line adds the unit price to its subtotal and the price's VAT to its VAT |
| CartLedger.StepUpTotals | src/lib/stores/cart.ts:19-28 | one more unit on a consistent line adds one item, the price and the price's VAT to the totals |
| CartLedger.StepDownTotals | src/lib/stores/cart.ts:49-58 | one unit less on a consistent line takes one item and the price off the totals |
| CartLedger.AddedTotals | src/lib/stores/cart.ts:13-40 | adding a product adds one item, its unit price and that price's VAT to the totals |
| CartLedger.RemovedTotals | src/lib/stores/cart.ts:43-64 | removing an absent product leaves the totals unchanged; removing a present one takes off one item and its unit price |
| CartLedger.DeletedTotals | src/lib/stores/cart.ts:66-69 | deleting a line takes its quantity, subtotal and VAT off the totals |
| CartLedger.CartStore.constructor | src/lib/stores/cart.ts:7 | the cart starts empty |
| CartLedger.CartStore.AddItem | src/lib/stores/cart.ts:13-40 | the new lines are `Added` of the old ones, and the cart stays well-formed |
| CartLedger.CartStore.RemoveItem | src/lib/stores/cart.ts:43-64 | the new lines are `Removed` of the old ones, and the cart stays well-formed |
| CartLedger.CartStore.DeleteItem | src/lib/stores/cart.ts:67-69 | the new lines are `Deleted` of the old ones, and the cart stays well-formed |
| CartLedger.CartStore.SetQuantity | src/lib/stores/cart.ts:72-87 | the new lines are `QuantitySet` of the old ones, and the cart stays well-formed |
| CartLedger.CartStore.Clear | src/lib/stores/cart.ts:90 | the cart is empty |
| CartLedger.CartStore.View | src/lib/stores/cart.ts:99-111 | on a well-formed cart the derived cart keeps the lines; its total is the sum of the line subtotals, its VAT the sum of the line VATs, its item count the sum of the quantities, and its pre-tax subtotal the sum of every line net of its own rate |
| CartLedger.Checkout | src/lib/stores/cart.ts:115-134 | the error "Le panier est vide" exactly on an empty cart; otherwise a transaction with the cart's lines and totals; cash given only for cash; change only for cash with a truthy amount, and then total + change = cash given |
| CartLedger.ProcessPayment | src/lib/stores/cart.ts:115-143 | on failure neither the cart nor the history changes; on success the transaction is appended to the history and the cart is emptied |
| Transactions.TransactionsStore.constructor | src/lib/stores/transactions.ts:12-14 | the history starts from the saved list |
| Transactions.TransactionsStore.Add | src/lib/stores/transactions.ts:20-29 | the transaction is appended at the end |
| Transactions.TransactionsStore.Clear | src/lib/stores/transactions.ts:54-59 | the history is empty |
| Transactions.TransactionsStore.ImportDemo | src/lib/stores/transactions.ts:62-67 | the history is replaced by the given list |
| Transactions.TransactionsStore.GetByDate | src/lib/stores/transactions.ts:39-43 | exactly the sales of that calendar day, each once, in recording order: the result is read off the history at strictly increasing positions, and those positions are exactly the ones whose sale has that day |
| Transactions.TransactionsStore.GetLastDays | src/lib/stores/transactions.ts:46-51 | exactly the sales at or after the cutoff, each once, in recording order: the result is read off the history at strictly increasing positions, and those positions are exactly the ones whose sale is at or after the cutoff |
| Transactions.OnDay | src/lib/stores/transactions.ts:78-84 | exactly the sales of that day are kept |
| Transactions.InWindow | src/lib/stores/transactions.ts:202 | exactly the sales at or after the cutoff are kept |
| Transactions.Comparison | src/lib/stores/transactions.ts:89-91 | 0 when yesterday's revenue is not positive; otherwise c·yesterday = (today − yesterday)·100, positive exactly when today beat yesterday |
| Transactions.AverageTicket | src/lib/stores/transactions.ts:105 | 0 with no sales; otherwise average × count = revenue |
| Transactions.HourlyOf | src/lib/stores/transactions.ts:114-138 | there are exactly 17 buckets |
| Transactions.CalculateHourlyData | src/lib/stores/transactions.ts:114-138 | the map-filling loop yields `HourlyOf` of the sales |
| Transactions.HourlyBuckets | src/lib/stores/transactions.ts:117-137 | bucket i is hour 6+i in ascending order; transaction count = customer count; a sale outside 6..22 changes nothing; a sale inside adds its total and one count to its hour's bucket only |
| Transactions.CountBetweenSplit | src/lib/stores/transactions.ts:127-135 | the sales of an hour range are those of the range without its last hour plus that hour's |
| Transactions.BucketPrefixCount | src/lib/stores/transactions.ts:127-135 | the counts of the first n buckets add up to the sales in hours 6..6+n−1 |
| Transactions.HourlyCountsEverySaleInHours | src/lib/stores/transactions.ts:127-135 | the bucket counts add up to exactly the sales in hours 6..22 |
| Transactions.FindSales | src/lib/stores/transactions.ts:146 | the entry of a product in the running tally, or none exactly when it has none |
| Transactions.TalliedTotals | src/lib/stores/transactions.ts:144-158 | the tally holds each product once, with the units and revenue of all of its lines; every sold product has an entry, and every entry is a sold product, carrying the product object of the first line that sold it |
| Transactions.TallyExisting | src/lib/stores/transactions.ts:147-149 | adding a line to the entry its product already has keeps the tally exact: one entry per product, each with the units and revenue of all its lines, an entry for every product sold and none for a product not sold |
| Transactions.TallyNew | src/lib/stores/transactions.ts:150-155 | appending the entry of a product seen for the first time keeps the tally exact: an entry for every product sold, none for a product not sold, the new entry carrying the product of the line that first sold it |
| Transactions.CountSale | src/lib/stores/transactions.ts:145-156 | one line folded into the per-product map is the tally step `Tally` |
| Transactions.InsertByRevenuePermutes | src/lib/stores/transactions.ts:160-161 | inserting into the ranking keeps the same entries |
| Transactions.InsertByRevenueSorted | src/lib/stores/transactions.ts:161 | inserting into a non-increasing ranking keeps it non-increasing |
| Transactions.InsertByRevenueStable | src/lib/stores/transactions.ts:161 | entries of equal revenue keep their relative order |
| Transactions.SortByRevenueSpec | src/lib/stores/transactions.ts:160-161 | the ranking is non-increasing in revenue, a permutation of the tally, and stable |
| Transactions.InsertByRevenueDistinct | src/lib/stores/transactions.ts:160-161 | inserting a new product keeps product ids distinct |
| Transactions.SortByRevenueDistinct | src/lib/stores/transactions.ts:160-161 | sorting keeps product ids distinct |
| Transactions.TopProductsRanked | src/lib/stores/transactions.ts:141-163 | at most ten entries (min of 10 and the number of products), non-increasing revenue, distinct products, each an entry of the tally and a product that was sold, with the sums of all its lines, and no product left out earned more than any product kept |
| Transactions.TalliedStep | src/lib/stores/transactions.ts:144-158 | the tally of one more line is that line tallied onto the tally so far |
| Transactions.AllLinesStep | src/lib/stores/transactions.ts:144-145 | one more sale appends its lines |
| Transactions.CalculateTopProducts | src/lib/stores/transactions.ts:141-163 | the nested map-filling loops, sort and slice yield `TopProductsOf` of the sales' lines |
| Transactions.Classify | src/lib/stores/transactions.ts:171-186 | an alert is only raised when both stock and minimum are defined |
| Transactions.ClassifyBands | src/lib/stores/transactions.ts:171-186 | out iff stock = 0; critical iff 0 ≠ stock and 2·stock ≤ min; low iff min/2 < stock ≤ min; none iff a field is undefined or stock > min |
| Transactions.RawAlerts | src/lib/stores/transactions.ts:170-188 | every alert is the one its product raises, and every product that raises one is listed |
| Transactions.RawAlertsInCatalogOrder | src/lib/stores/transactions.ts:170-188 | the alerts come from the catalog at strictly increasing positions, each the alert its product raises, and a product is listed exactly when it raises an alert: once each, in catalog order, none from outside the catalog |
| Transactions.WithStatus | src/lib/stores/transactions.ts:190-193 | only alerts of the status are kept |
| Transactions.WithStatusSplit | src/lib/stores/transactions.ts:190-193 | selecting a status from a concatenation selects from each part |
| Transactions.WithStatusSame | src/lib/stores/transactions.ts:190-193 | selecting a status among alerts of that status keeps them all |
| Transactions.WithStatusOther | src/lib/stores/transactions.ts:190-193 | selecting another status among alerts of one status finds none |
| Transactions.WithStatusTwice | src/lib/stores/transactions.ts:190-193 | selecting a status twice is selecting it once; two different statuses select nothing |
| Transactions.WithStatusPartition | src/lib/stores/transactions.ts:190-193 | the three statuses split the alerts without loss |
| Transactions.PrioritizedOrdered | src/lib/stores/transactions.ts:190-193 | out alerts come before critical ones, which come before low ones |
| Transactions.PrioritizedPermutes | src/lib/stores/transactions.ts:190-193 | the sort neither drops nor adds an alert |
| Transactions.PrioritizedStable | src/lib/stores/transactions.ts:190-193 | alerts of one status keep their catalog order |
| Transactions.CalculateStockAlerts | src/lib/stores/transactions.ts:166-194 | the loop and the sort yield the prioritised alerts of the catalog |
| Transactions.DashboardOf | src/lib/stores/transactions.ts:74-111 | each dashboard field is the revenue, count, average ticket, comparison, hourly data, top products or stock alerts of today's sales |
| Staffing.StaffGrowsWithTraffic | src/lib/stores/transactions.ts:327-343 | 3 staff for high, 2 for medium, 1 for low; different levels have different staff counts and reasons |
| Staffing.CreateRecommendation | src/lib/stores/transactions.ts:327-343 | the recommendation spans [start, end) at the level, with that level's staff count and reason |
| Staffing.RunsTile | src/lib/stores/transactions.ts:302-325 | a recommendation exists exactly when a peak hour does, and there are never more recommendations than peak hours; the first starts at the first peak hour and the last ends one hour after the last peak hour, at its level; each ends where the next starts, and adjacent ones have different levels |
| Staffing.RunsStep | src/lib/stores/transactions.ts:309-321 | one more peak hour either extends the open run or closes it at that hour and opens a run for its own level |
| Staffing.RunsOneLevel | src/lib/stores/transactions.ts:302-325 | peak hours all of one level give a single recommendation |
| Staffing.RunsStartAtPeaks | src/lib/stores/transactions.ts:313-316 | every recommendation starts at a peak hour and has its level |
| Staffing.RunsCover | src/lib/stores/transactions.ts:302-325 | with increasing hours, each peak hour lies inside a recommendation of its own level |
| Staffing.RunsStartBeforeEnd | src/lib/stores/transactions.ts:309-321 | the last recommendation starts no later than the last peak hour |
| Staffing.GenerateStaffRecommendations | src/lib/stores/transactions.ts:302-325 | the loop over the current level and start hour yields `Runs` of the peak hours |
| Traffic.PairsAreDays | src/lib/stores/transactions.ts:212-224 | a (day, hour) pair has been seen exactly when that day had a sale in that hour |
| Traffic.DaysBoundCount | src/lib/stores/transactions.ts:227-235 | an hour's busy days never outnumber its sales, and there are none exactly when there are no sales |
| Traffic.AverageAtBounds | src/lib/stores/transactions.ts:242 | an hour's average is ≥ 0, is 0 exactly when it had no sale, and is ≥ 1 otherwise |
| Traffic.Quotient | src/lib/stores/transactions.ts:242 | sales over busy days times the busy days gives the sales back |
| Traffic.Averages | src/lib/stores/transactions.ts:241-242 | there is one average per opening hour (17) |
| Traffic.MaxOfIsMax | src/lib/stores/transactions.ts:239-243 | the running maximum starting from 0 is ≥ 0 and ≥ every average, and it is 0 or one of them |
| Traffic.LevelsFollowTraffic | src/lib/stores/transactions.ts:254-262 | a busier hour never gets a lower level, an hour at the maximum is high, and with a maximum of 0 every hour is high |
| Traffic.PeakHoursOf | src/lib/stores/transactions.ts:238-262 | there are exactly 17 peak hours |
| Traffic.PeakHoursShape | src/lib/stores/transactions.ts:238-262 | peak hour i is hour 6+i, within 6..22, hours strictly increase, and the busiest hour is high |
| Traffic.NoTrafficAllHigh | src/lib/stores/transactions.ts:254-262 | with no sale in opening hours every hour is high, giving the single recommendation 6h–23h with 3 staff |
| Traffic.MaxOfZeros | src/lib/stores/transactions.ts:239-243 | the maximum of all-zero averages is 0 |
| Traffic.DayNamesDistinct | src/lib/stores/transactions.ts:269 | seven distinct day names |
| Traffic.FindDay | src/lib/stores/transactions.ts:273 | the entry of a weekday, or none exactly when it has none |
| Traffic.DayCountsSpec | src/lib/stores/transactions.ts:268-274 | each weekday with a sale appears once with its count of sales; no other day appears; there are no entries exactly when there are no sales |
| Traffic.FirstMaxSpec | src/lib/stores/transactions.ts:281-285 | the busiest entry has the highest count and wins ties by coming first; there is none when no count is positive |
| Traffic.FirstMinSpec | src/lib/stores/transactions.ts:286-289 | the quietest entry has the lowest count and wins ties by coming first; there is none exactly when there are no entries |
| Traffic.HourlyTallies | src/lib/stores/transactions.ts:212-235 | per opening hour, the number of sales and the number of distinct days with a sale |
| Traffic.CountInHour | src/lib/stores/transactions.ts:214-235 | one sale adds one to its hour's sale count, and one to its hour's day count when its (day, hour) pair is new; other hours are unchanged |
| Traffic.HourlyStep | src/lib/stores/transactions.ts:214-235 | after one more sale the buckets still equal the sale and busy-day counts of the sales seen so far |
| Traffic.BucketStep | src/lib/stores/transactions.ts:223-233 | one more sale adds a sale to its hour, and a day only when its (day, hour) pair is new |
| Traffic.CountByWeekday | src/lib/stores/transactions.ts:268-274 | the counting loop yields `DayCounts` |
| Traffic.BusiestAndQuietest | src/lib/stores/transactions.ts:276-290 | the strict-comparison scan names the first maximum and the first minimum, or "N/A" |
| Traffic.AveragePeakHours | src/lib/stores/transactions.ts:238-251 | one peak hour per opening hour with its average, and the running maximum of the averages |
| Traffic.AssignLevels | src/lib/stores/transactions.ts:254-262 | the level pass yields `PeakHoursOf` of the window |
| Traffic.AnalyzeTraffic | src/lib/stores/transactions.ts:197-299 | the analysis of the window: its peak hours, their recommendations, the mean of the averages over 17 hours, and the busiest and quietest days |
| Traffic.RecommendationsTileOpeningHours | src/lib/stores/transactions.ts:264-265 | for any window the recommendations tile 6h to 23h with alternating levels, and cover every peak hour at its level |
| Traffic.AveragePerHourNonNegative | src/lib/stores/transactions.ts:295 | the average customers per hour is never negative |
| Traffic.BusiestAndQuietestDays | src/lib/stores/transactions.ts:276-290 | "N/A" exactly for an empty window; otherwise the day with the most sales and the day with the fewest, first seen winning ties |
| Traffic.DayNamesNotNA | src/lib/stores/transactions.ts:269 | no day is named "N/A" |
| Traffic.CustomersNonNegative | src/lib/stores/transactions.ts:295 | a sum of non-negative averages is non-negative |
| Demo.WeightsShape | src/lib/stores/transactions.ts:415-433 | the sampler covers hours 7..21 in order, every weight is positive, and the weights add up to 500 |
| Demo.CumulativeIncreasing | src/lib/stores/transactions.ts:415-431 | cumulative weight strictly grows along the table |
| Demo.GetWeightedHour | src/lib/stores/transactions.ts:414-442 | for a draw r in [0, 500) the hour is in 7..21 and it is the first hour whose cumulative weight reaches r, so the fallback 12 is never returned |
| Demo.WeightedBandsDisjoint | src/lib/stores/transactions.ts:436-439 | a draw falls in the band of exactly one hour |
| Demo.Ceil | src/lib/stores/transactions.ts:402 | the ceiling lies in [x, x + 1) |
| Demo.CashRoundedBounds | src/lib/stores/transactions.ts:402-403 | the cash covers the total, the change is in [0, 5), and the cash is a multiple of 5 |
| Demo.DemoLine | src/lib/stores/transactions.ts:379-382 | a demo line's subtotal and VAT are those of a cart line |
| Demo.DemoRecordIsCheckout | src/lib/stores/transactions.ts:394-406 | a demo sale is what the payment would record for the same lines, paid by card or with the rounded-up cash when that is not 0 |
| Demo.DemoSale | src/lib/stores/transactions.ts:376-406 | one line per draw, equal to the cart line of the drawn product and quantity, with the running totals and the payment fields of `DemoRecord` |
| Listing.MapWhere | src/lib/stores/products.ts:44-48 | the matching entries are changed, all others kept, length and order preserved |
| Listing.Where | src/lib/stores/products.ts:57 | exactly the kept entries remain, and nothing is dropped when all are kept |
| Listing.WhereSplit | src/lib/stores/products.ts:57 | filtering keeps the order of what it keeps |
| Listing.WhereWhere | src/lib/stores/products.ts:131-138 | filtering by one test and then another is filtering by both |
| Listing.WhereAtPositions | src/lib/stores/products.ts:57 | `filter` takes its entries from the list at strictly increasing positions, and a position is taken exactly when its entry passes the test |
| Listing.WhereNone | src/lib/stores/products.ts:57 | filtering out every entry leaves nothing |
| Listing.FirstWhere | src/lib/stores/products.ts:110 | the index of the first match, none before it |
| Listing.FirstWhereSnoc | src/lib/stores/transactions.ts:146-155 | with one more entry at the end, an earlier first match stays the first, and otherwise the new entry is the first match when it matches |
| Products.Patched | src/lib/stores/products.ts:46 | each of the eight fields is the patch's value when the patch carries one and the product's own otherwise; an empty patch changes nothing |
| Products.AtLeastZero | src/lib/stores/products.ts:81 | `Math.max(0, n)`: at least n and at least 0, equal to n when n ≥ 0 |
| Products.Toggle | src/lib/stores/products.ts:68 | `isActive` is negated and every other field is unchanged |
| Products.StockAdded | src/lib/stores/products.ts:80-81 | a tracked stock stays tracked and becomes stock + q when that is ≥ 0 and 0 when it is negative; an untracked one is untouched; no other field changes |
| Products.UpdateScoped | src/lib/stores/products.ts:42-52 | only products with the id are patched; the others and the order are unchanged |
| Products.ToggleTwice | src/lib/stores/products.ts:64-74 | toggling flips `isActive` of matching products only, and toggling twice restores the list |
| Products.StockUpdateClamped | src/lib/stores/products.ts:77-87 | matching tracked stocks become max(0, stock + q); other products are untouched; non-negative stocks stay non-negative |
| Products.DecrementIsNegativeUpdate | src/lib/stores/products.ts:90-100 | decrementing by q is updating by −q |
| Products.DeleteScoped | src/lib/stores/products.ts:55-61 | every product with the id and only those are removed, the others keep their order |
| Products.GetById | src/lib/stores/products.ts:109-111 | the first product with the id, or none exactly when no product has it |
| Products.FilteredIsGetByCategory | src/lib/stores/products.ts:114-139 | all categories lists exactly the active products; one category lists exactly `getByCategory`, in order; `getByCategory` holds exactly the active products of the category |
| Products.ProductsStore.constructor | src/lib/stores/products.ts:8-14 | the catalog starts from the saved list, else the defaults |
| Products.ProductsStore.Add | src/lib/stores/products.ts:27-39 | the product, with its new id, is appended at the end |
| Products.ProductsStore.Update | src/lib/stores/products.ts:42-52 | the list becomes `Updated` of the old one |
| Products.ProductsStore.Delete | src/lib/stores/products.ts:55-61 | the list becomes `Deleted` of the old one |
| Products.ProductsStore.ToggleActive | src/lib/stores/products.ts:64-74 | the list becomes `Toggled` of the old one |
| Products.ProductsStore.UpdateStock | src/lib/stores/products.ts:77-87 | the list becomes `StockUpdated` of the old one |
| Products.ProductsStore.DecrementStock | src/lib/stores/products.ts:90-100 | the list becomes `StockDecremented` of the old one, by one unit when no quantity is given |
| Products.ProductsStore.Reset | src/lib/stores/products.ts:103-106 | the list is the default catalog |
| Auth.DefaultUsersShape | src/lib/stores/auth.ts:5-46 | five active accounts (an owner, a secretary, three employees) with distinct ids and distinct PINs |
| Auth.UserPatched | src/lib/stores/auth.ts:83 | each of the five fields is the patch's value when the patch carries one and the user's own otherwise; an empty patch changes nothing |
| Auth.UsersMutatorsScoped | src/lib/stores/auth.ts:80-106 | update and toggle change only the users with the id; delete removes exactly those and keeps the order of the rest |
| Auth.UsersToggleTwice | src/lib/stores/auth.ts:98-106 | toggling twice restores the list |
| Auth.GetByPin | src/lib/stores/auth.ts:113-115 | the first active user with the PIN, or none exactly when there is none; an inactive user is never returned |
| Auth.DefaultPinsLogIn | src/lib/stores/auth.ts:5-46 | with the default accounts each PIN finds its own account and an unknown PIN finds nobody |
| Auth.UsersStore.constructor | src/lib/stores/auth.ts:50-56 | the accounts start from the saved list, else the defaults |
| Auth.UsersStore.Add | src/lib/stores/auth.ts:67-78 | the account, with its new id, is appended at the end |
| Auth.UsersStore.Update | src/lib/stores/auth.ts:80-88 | the list becomes `UsersUpdated` of the old one |
| Auth.UsersStore.Delete | src/lib/stores/auth.ts:90-96 | the list becomes `UsersDeleted` of the old one |
| Auth.UsersStore.ToggleActive | src/lib/stores/auth.ts:98-106 | the list becomes `UsersToggled` of the old one |
| Auth.UsersStore.Reset | src/lib/stores/auth.ts:108-111 | the list is exactly the five default accounts |
| Auth.AuthStore.constructor | src/lib/stores/auth.ts:123-129 | the session starts from the saved user, else logged out |
| Auth.AuthStore.Login | src/lib/stores/auth.ts:134-147 | success exactly when an active user has the PIN, and then that user is current; otherwise "Code PIN invalide" and the current user is unchanged |
| Auth.AuthStore.Logout | src/lib/stores/auth.ts:149-154 | nobody is logged in |
| Auth.CurrentPermissions | src/lib/stores/auth.ts:165-205 | none when logged out, else the row of the user's role, which agrees with `ROLE_PERMISSIONS` |
| Auth.IsAuthenticated | src/lib/stores/auth.ts:208 | true exactly when a user is logged in |
| Auth.CurrentRole | src/lib/stores/auth.ts:211 | the current user's role, none when logged out |
| Auth.HasPermission | src/lib/stores/auth.ts:214-220 | false when logged out, else the flag of the user's role in `ROLE_PERMISSIONS` |
| Auth.PermissionsByRole | src/lib/stores/auth.ts:170-220 | nothing is permitted when logged out; the owner may do everything, an employee nothing, a secretary everything but settings and employees |

## Left out

- Persistence: `localStorage` and the JSON round trip are I/O. Each store starts from an optional saved list passed to its constructor.
- Svelte's `writable`, `derived` and `get` machinery is not modelled. A store is a class with a list field. A derived store is a pure function of the current state.
- Clocks and dates are not modelled:
  - `new Date()`, `toDateString`, `getHours`, `getDay`, `setDate` and time zones;
  - a sale carries its instant, calendar day, hour and weekday;
  - today, yesterday and the cutoff of `getLastDays` and `analyzeTraffic` are parameters;
  - `createdAt` and `updatedAt` are not modelled.
- Randomness is not modelled. The id and receipt-number strings are parameters. So are the draws of the demo generator: the hour draw, the product indices, the quantities and the payment method.
- `generateDemoTransactions`: its outer loops over 14 days and a random number of sales per day depend on the clock and on randomness. Only one sale's arithmetic (`Demo.DemoSale`) and the hour sampler are modelled. The source comment says one to five lines, but the draw gives one to four. The model takes the lines as given.
- The `timeSlot` display string of a recommendation is not modelled (`src/lib/stores/transactions.ts:336`).
- `getToday` is not modelled separately, because it is `getByDate` of today.
- Floating point: money, rates and averages use exact `real` arithmetic. IEEE-754 rounding is not modelled. Stock quantities are integers.
- The colour and icon of a product and the employee fields of a transaction are never used by the core, so they are not modelled.
- `AppState`, `LiveStats` and `DailySales` are not used by the core, so they are not modelled.
- `src/lib/data/categories.ts` (display metadata) and `tailwind.config.js` (styling) are not part of this model.
- The default catalog `defaultProducts` and `generateProductId` of `$lib/data/products` are not part of this model. The defaults are a constructor parameter of `ProductsStore`, and the new id is a parameter of `Add`.
- Traffic.AnalyzeTraffic: the source fills a day→hour→count map and then folds it into per-hour totals. The model does one pass that counts a day for an hour the first time that (day, hour) pair is seen. `Traffic.HourlyTallies` proves this gives the same sales and busy-day counts per hour. Sales outside 6..22 are dropped, as the source drops them.
- Traffic.AnalyzeTraffic: the final filter on hours 6..22 is applied as the identity, because `Traffic.PeakHoursShape` proves every peak hour is in that range. `averageRevenue` is always 0 in the source, and the model keeps it 0.
- Staffing.GenerateStaffRecommendations: the source pushes the open run inside the loop, when it reaches the last peak hour. The model pushes it right after the loop, which gives the same list.
- Transactions.CalculateTopProducts: JavaScript's stable `sort` is modelled as a stable insertion sort by descending revenue.
- Transactions.CalculateStockAlerts: the stable sort on the out/critical/low priority is modelled as concatenating the out, critical and low alerts, each in catalog order. `Transactions.PrioritizedOrdered`, `PrioritizedPermutes` and `PrioritizedStable` prove this is a stable sort.
- Products.ProductPatch: a patch field explicitly set to `undefined` is modelled only for the optional `stock` and `minStock`, as `Some(None)`. `Partial<Product>` also lets a caller pass `undefined` for a required field such as `price`, and the spread then writes `undefined` into the product. The model has no such value for a required field, so `Products.Patched` does not represent that case. The same holds for `Auth.UserPatch` and `Auth.UserPatched`.
- CartLedger.QuantitySet: quantities are integers. The source's `setQuantity` takes any number, so a fractional quantity such as 0.5 passes the `quantity <= 0` test and leaves a line of less than one unit. Such a cart breaks the quantity ≥ 1 part of `CartLedger.WellFormed`, and the model does not represent it.
- CartLedger.CartStore.SetQuantity: the same integer restriction as `CartLedger.QuantitySet`.
- Auth.AuthStore.Login: the lookup reads the current accounts of the users store given as a parameter. `getCurrentUser` is reading `current`.

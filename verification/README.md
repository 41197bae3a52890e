# Storefront and admin pages: a Dafny model

This project models the logic inside five screens of a small web shop. The
shop is a React application over a hosted database.

- **Admin order list.** The search/status filter, the status badge lookup
  with its fallback, and the page state changed by loading orders, loading
  an order's items and changing an order's status.
- **Tracking-pixel settings.** The masking of tracking ids, the
  "Active"/"Inactive" status of each tracker, and the branch the "test"
  buttons take.
- **Admin analytics.** Period totals, average order value, growth with its
  divide-by-zero guard, and sales and revenue per product. Also the five
  best sellers, the six-month revenue table, and order counts and
  percentages per status.
- **Checkout.** The form schema, the empty-cart guard, the order row, one
  order line per cart line, and the stock update loop. Any error aborts
  the submission, and the cart is cleared only at the end.
- **Product list.** The case-insensitive search, the category filter, the
  de-duplicated category list and the add-to-cart button.

Modules:

- `Types`: the records of `src/types/index.ts`.
- `Seqs` and `Text`: the JavaScript built-ins the pages rely on
  (`filter`, `[...new Set(xs)]`, `toLowerCase`, `includes`, `repeat`).
- `CartStore`: the client cart, which is kept abstract.
- One module per page: `AdminOrders`, `AdminPixels`, `AdminAnalytics`,
  `Checkout` and `Products`.

Pure expressions of the source are functions, each with lemmas about it.
The rest is imperative Dafny:

- State the pages change in place is held in classes (`OrdersPage`,
  `CheckoutPage`, `Database`, `Cart`).
- The `forEach` and `for` loops of the analytics screen and of the checkout
  are methods with loop invariants. Each is proved against the function
  that specifies it.

Every database answer is a parameter of the method that awaits it. In the
checkout this is a `Faults` schedule, which says which requests fail. The
stored rows themselves are a `Database` object.

Money is a `real` and quantities are integers. Time is a number of
milliseconds.

## Model

| member | source | states |
|---|---|---|
| Types.StatusValueInjective | src/types/index.ts:25 | the five statuses are stored as five different strings |
| Seqs.Filter | src/pages/storefront/ProductsPage.tsx:37-42 | `Array.filter` keeps, in their order, exactly the elements satisfying the predicate: a subsequence of its input, every kept element satisfies it, and each satisfying element is kept as many times as it occurs |
| Seqs.Dedup | src/pages/storefront/ProductsPage.tsx:44 | `[...new Set(xs)]` has no repetitions and the same elements as `xs` |
| Seqs.DedupFirstOccurrenceOrder | src/pages/storefront/ProductsPage.tsx:44 | the de-duplicated list is in order of first occurrence |
| Seqs.CountsOverDedup | src/pages/admin/AdminAnalyticsPage.tsx:185-193 | counting each distinct element accounts for every element exactly once |
| Text.ToLower | src/pages/storefront/ProductsPage.tsx:38-39 | lower-casing keeps the length and maps each ASCII capital to its small letter, position by position |
| Text.ToLowerIdempotent | src/pages/admin/AdminOrdersPage.tsx:132-136 | lower-casing twice is lower-casing once |
| Text.IncludesIffSubstring | src/pages/admin/AdminOrdersPage.tsx:132-136 | `includes` holds exactly when the term occurs at some index |
| Text.Repeat | src/pages/admin/AdminPixelsPage.tsx:127 | `'*'.repeat(n)` has length `n` and only `*` |
| CartStore.Cart.constructor | src/pages/storefront/CheckoutPage.tsx:19 | a cart starts with the given lines and no add requests |
| CartStore.Cart.AddItem | src/pages/storefront/ProductsPage.tsx:14 | an `addItem` request is recorded; its effect on the lines belongs to the cart store |
| CartStore.Cart.ClearCart | src/pages/storefront/CheckoutPage.tsx:82 | `clearCart` leaves no line |
| Products.FilterProducts | src/pages/storefront/ProductsPage.tsx:37-42 | the products shown are, in order, exactly those that match the search and the category, each as many times as it is in the list |
| Products.SearchIsLowerCaseSubstring | src/pages/storefront/ProductsPage.tsx:38-39 | a product matches iff the lower-cased term is a substring of the lower-cased name, or of the lower-cased description when there is one |
| Products.SearchIgnoresTermCase | src/pages/storefront/ProductsPage.tsx:38-39 | the case of the term does not change the result |
| Products.NullDescriptionNeverMatches | src/pages/storefront/ProductsPage.tsx:39 | a product without a description whose name does not match is not shown, whatever the other products and the category |
| Products.EmptyFilterKeepsAll | src/pages/storefront/ProductsPage.tsx:37-42 | an empty term and no category keep every product, in order |
| Products.CategoryIsExact | src/pages/storefront/ProductsPage.tsx:40 | with a category selected, every product shown has exactly that category |
| Products.CategoryLabels | src/pages/storefront/ProductsPage.tsx:44 | the labels are the non-null, non-empty categories of the products |
| Products.CategoryLabelsInProductOrder | src/pages/storefront/ProductsPage.tsx:44 | there is one label per product with a non-empty category, and each product's label comes right after the labels of the products before it |
| Products.CategoryColumn | src/pages/storefront/ProductsPage.tsx:44 | `products.map(p => p.category)`: the category of each product, in product order |
| Products.LabelOrderIsProductOrder | src/pages/storefront/ProductsPage.tsx:44 | a label met before another among the labels first occurs on an earlier product |
| Products.Categories | src/pages/storefront/ProductsPage.tsx:44 | the drop-down lists each non-empty category once, and only categories some product has |
| Products.CategoriesInFirstOccurrenceOrder | src/pages/storefront/ProductsPage.tsx:44 | a category listed before another in the drop-down first occurs on an earlier product |
| Products.HandleAddToCart | src/pages/storefront/ProductsPage.tsx:46-48 | the button asks the cart for exactly one unit of the product |
| AdminOrders.FilterOrders | src/pages/admin/AdminOrdersPage.tsx:130-139 | the table shows, in order, exactly the orders that match the search and the status filter, each as many times as it is in the list |
| AdminOrders.EmptyFiltersKeepAll | src/pages/admin/AdminOrdersPage.tsx:131-137 | an empty term and no status keep every order |
| AdminOrders.StatusFilterIsExact | src/pages/admin/AdminOrdersPage.tsx:137 | with a status chosen every listed order has it; a string naming no status lists nothing |
| AdminOrders.SearchCaseSensitivity | src/pages/admin/AdminOrdersPage.tsx:132-136 | a match on name or id is found whatever the case of the term |
| AdminOrders.PhoneIsCaseSensitive | src/pages/admin/AdminOrdersPage.tsx:135 | the phone is matched as typed: "5X" is found by "5X" and not by "5x" |
| AdminOrders.FindOption | src/pages/admin/AdminOrdersPage.tsx:160 | `find` returns the first option with the value, or nothing iff no option has it |
| AdminOrders.GetStatusConfig | src/pages/admin/AdminOrdersPage.tsx:158-163 | the badge is a listed option, the one with the status's value when there is one, else the first |
| AdminOrders.OptionsFollowStatusOrder | src/pages/admin/AdminOrdersPage.tsx:23-54 | the options list the five statuses in their declared order |
| AdminOrders.KnownStatusConfig | src/pages/admin/AdminOrdersPage.tsx:158-163 | each of the five statuses gets its own option |
| AdminOrders.ConfigIsListedOption | src/pages/admin/AdminOrdersPage.tsx:23-54 | no two options carry the same status value |
| AdminOrders.UnknownStatusFallsBackToPending | src/pages/admin/AdminOrdersPage.tsx:161 | any string that is not a status gets the "pending" badge |
| AdminOrders.Loaded | src/pages/admin/AdminOrdersPage.tsx:89-93 | a read replaces the list with the rows (none for a null answer); an error keeps the previous list |
| AdminOrders.WithStatus | src/pages/admin/AdminOrdersPage.tsx:114-117 | only a selected order with the updated id changes, and only in its status |
| AdminOrders.OrdersPage.constructor | src/pages/admin/AdminOrdersPage.tsx:15-21 | the initial page state |
| AdminOrders.OrdersPage.Visible | src/pages/admin/AdminOrdersPage.tsx:130-139 | the rows rendered are, in order, exactly the loaded orders that match the current search and status filter, each as many times as it was loaded |
| AdminOrders.OrdersPage.FetchOrders | src/pages/admin/AdminOrdersPage.tsx:60-75 | the list becomes the rows read, or stays on error; loading ends |
| AdminOrders.OrdersPage.FetchOrderItems | src/pages/admin/AdminOrdersPage.tsx:77-94 | the items become the rows read; on error the previous items stay |
| AdminOrders.OrdersPage.UpdateOrderStatus | src/pages/admin/AdminOrdersPage.tsx:96-122 | on error only an alert is added and the selected order is untouched; on success the list is reloaded and the selected order gets the status if its id matches |
| AdminOrders.OrdersPage.ViewOrderDetails | src/pages/admin/AdminOrdersPage.tsx:124-128 | the order is selected, its items loaded and the modal opened |
| AdminPixels.MaskId | src/pages/admin/AdminPixelsPage.tsx:125-129 | same length; an empty or revealed id is unchanged; a short hidden id is all `*`; a long one keeps its first and last four characters and is `*` in between |
| AdminPixels.MaskIdAt | src/pages/admin/AdminPixelsPage.tsx:126-128 | each position shows the id's character where revealed and `*` elsewhere |
| AdminPixels.MaskIdIdempotent | src/pages/admin/AdminPixelsPage.tsx:125-129 | masking a masked id changes nothing |
| AdminPixels.StatusText | src/pages/admin/AdminPixelsPage.tsx:378-402 | "Active" iff the tracker is enabled and its id is not empty, "Inactive" otherwise |
| AdminPixels.DisabledOrEmptyIsInactive | src/pages/admin/AdminPixelsPage.tsx:378-402 | a disabled tracker or an empty id always shows "Inactive" |
| AdminPixels.TestPixel | src/pages/admin/AdminPixelsPage.tsx:100-123 | a tracking call is made iff the type matches an enabled tracker with an id and its script is loaded, and then the "test event sent" alert of that tracker is shown; otherwise the "not loaded" alert of the tracker, or "configure the pixel first" when the tracker is disabled or has no id |
| AdminAnalytics.SumAmountsAppend | src/pages/admin/AdminAnalyticsPage.tsx:93-95 | the revenue sum is additive over concatenation |
| AdminAnalytics.SumAmountsBounds | src/pages/admin/AdminAnalyticsPage.tsx:93-95 | non-negative amounts at most `max` sum to between 0 and count × `max` |
| AdminAnalytics.TotalRevenue | src/pages/admin/AdminAnalyticsPage.tsx:93-95 | revenue is the sum of the amounts, 0 when there is no data |
| AdminAnalytics.TotalOrders | src/pages/admin/AdminAnalyticsPage.tsx:96 | the count of orders, 0 when there is no data |
| AdminAnalytics.AverageOrderValue | src/pages/admin/AdminAnalyticsPage.tsx:97-98 | average × count = revenue when there are orders, else 0 |
| AdminAnalytics.Growth | src/pages/admin/AdminAnalyticsPage.tsx:119-128 | 0 when the previous value is not positive; else growth × previous = (current − previous) × 100, with the sign of the change |
| AdminAnalytics.ProductLabel | src/pages/admin/AdminAnalyticsPage.tsx:133 | the product's name, or "Unknown Product" when there is no product or the name is empty |
| AdminAnalytics.Labels | src/pages/admin/AdminAnalyticsPage.tsx:133 | one label per item, in order |
| AdminAnalytics.AbsentNameSoldNothing | src/pages/admin/AdminAnalyticsPage.tsx:131-142 | a name no item carries has no sales and no revenue |
| AdminAnalytics.Accumulate | src/pages/admin/AdminAnalyticsPage.tsx:134-141 | one item adds an entry for its own name to the map and keeps every other key |
| AdminAnalytics.NamesUpToAreDistinctNames | src/pages/admin/AdminAnalyticsPage.tsx:131-142 | after each item, the map's key order is the first-occurrence order of the names read so far |
| AdminAnalytics.TallyUpToKeys | src/pages/admin/AdminAnalyticsPage.tsx:131-142 | after each item, the map has exactly one key per name read |
| AdminAnalytics.TallyUpToIsTotals | src/pages/admin/AdminAnalyticsPage.tsx:131-142 | after each item, every entry holds the summed quantities and price × quantity of its name |
| AdminAnalytics.TallyStep | src/pages/admin/AdminAnalyticsPage.tsx:134-141 | counting one more item keeps every entry exact |
| AdminAnalytics.ItemsSnoc | src/pages/admin/AdminAnalyticsPage.tsx:132-133 | reading one more item adds its label, and a new key only for a new name |
| AdminAnalytics.TotalsSnoc | src/pages/admin/AdminAnalyticsPage.tsx:139-140 | reading one more item adds its quantity and line total to its own name only |
| AdminAnalytics.ProductSales | src/pages/admin/AdminAnalyticsPage.tsx:131-142 | the loop yields one entry per distinct name, in first-occurrence order, each with that name's total sales and revenue |
| AdminAnalytics.TalliedIsSalesTable | src/pages/admin/AdminAnalyticsPage.tsx:131-142 | a map with one exact entry per name read, and no other key, is the table of each name's total sales and revenue |
| AdminAnalytics.Summaries | src/pages/admin/AdminAnalyticsPage.tsx:144-145 | one summary per map entry, in key order, with its name, sales and revenue |
| AdminAnalytics.InsertByRevenue | src/pages/admin/AdminAnalyticsPage.tsx:146 | inserting into a list sorted by falling revenue keeps it sorted and adds exactly the element |
| AdminAnalytics.HeadDominates | src/pages/admin/AdminAnalyticsPage.tsx:146 | a head with higher revenue stays first after an insertion behind it |
| AdminAnalytics.SortByRevenue | src/pages/admin/AdminAnalyticsPage.tsx:146 | the sort result is in non-increasing revenue and is a permutation of its input |
| AdminAnalytics.TopProducts | src/pages/admin/AdminAnalyticsPage.tsx:144-147 | at most five entries, min(5, n) exactly, sorted by revenue, all taken from the grouping |
| AdminAnalytics.TopProductsAreTop | src/pages/admin/AdminAnalyticsPage.tsx:146-147 | no entry left out earns more than an entry kept |
| AdminAnalytics.TopProductsCarryTotals | src/pages/admin/AdminAnalyticsPage.tsx:131-147 | every top entry carries the total sales and revenue of its name over the items |
| AdminAnalytics.LastDayOrdersAreDropped | src/pages/admin/AdminAnalyticsPage.tsx:159-168 | the month test as written misses an order placed after midnight on the month's last day |
| AdminAnalytics.MonthsPartitionTime | src/pages/admin/AdminAnalyticsPage.tsx:154-168 | with the corrected test, consecutive months put every instant in exactly one of them |
| AdminAnalytics.MonthOrders | src/pages/admin/AdminAnalyticsPage.tsx:165-169 | the orders the page keeps for a month with its own test (from the month's start to midnight at the start of its last day), in order, each as many times as it was read; none when there is no data |
| AdminAnalytics.CorrectedMonthOrders | src/pages/admin/AdminAnalyticsPage.tsx:159-168 | the orders of a month under the intended test (any instant before the next month starts), in order, each as many times as it was read |
| AdminAnalytics.MonthOrdersMissLastDay | src/pages/admin/AdminAnalyticsPage.tsx:159-168 | the page's month holds the intended month's orders except exactly those placed after midnight on the last day |
| AdminAnalytics.MonthRowOf | src/pages/admin/AdminAnalyticsPage.tsx:171-181 | a month's row has its name, the sum of its orders' amounts, and the number of orders summed |
| AdminAnalytics.RevenueByMonth | src/pages/admin/AdminAnalyticsPage.tsx:150-182 | exactly six rows, oldest month first, each the row of its month under the page's own month test |
| AdminAnalytics.StatusList | src/pages/admin/AdminAnalyticsPage.tsx:188-193 | the statuses of the orders, in order |
| AdminAnalytics.StatusesUpToAreDistinctStatuses | src/pages/admin/AdminAnalyticsPage.tsx:188-193 | after each order, the map's key order is the first-occurrence order of the statuses read |
| AdminAnalytics.CountsUpToAreCounts | src/pages/admin/AdminAnalyticsPage.tsx:188-193 | after each order, the map has a key per status read, holding the number of orders with it |
| AdminAnalytics.StatusCounts | src/pages/admin/AdminAnalyticsPage.tsx:185-193 | one key per status present, in first-occurrence order, each mapped to the number of orders with that status |
| AdminAnalytics.CountedIsStatusTable | src/pages/admin/AdminAnalyticsPage.tsx:185-193 | a map holding the count of each status present, and no other key, is the table of the status counts |
| AdminAnalytics.Percentage | src/pages/admin/AdminAnalyticsPage.tsx:199-202 | percentage × total = count × 100 when there are orders, else 0 |
| AdminAnalytics.OrdersByStatus | src/pages/admin/AdminAnalyticsPage.tsx:195-204 | one entry per key, in key order, with its count and percentage |
| AdminAnalytics.PercentagesScale | src/pages/admin/AdminAnalyticsPage.tsx:199-202 | the percentages add up to the counts' sum scaled to the total |
| AdminAnalytics.ShareCountsAreCounts | src/pages/admin/AdminAnalyticsPage.tsx:185-204 | the counts listed add up to the per-status counts of the orders |
| AdminAnalytics.StatusCountsAddUp | src/pages/admin/AdminAnalyticsPage.tsx:185-204 | each order is counted under exactly one status, so the counts add up to the number of orders |
| AdminAnalytics.PercentagesOfWhole | src/pages/admin/AdminAnalyticsPage.tsx:199-202 | percentages of counts that add up to the total add up to 100 |
| AdminAnalytics.StatusPercentagesAddUp | src/pages/admin/AdminAnalyticsPage.tsx:185-204 | when there are orders, the status percentages add up to 100 |
| AdminAnalytics.BestSellers | src/pages/admin/AdminAnalyticsPage.tsx:131-147 | the top products are the first five, by falling revenue, of one summary per distinct name with its total sales and revenue |
| AdminAnalytics.StatusShares | src/pages/admin/AdminAnalyticsPage.tsx:185-204 | one share per status in first-occurrence order with its count and percentage; the counts add up to the orders, the percentages to 100 |
| AdminAnalytics.ComputeAnalytics | src/pages/admin/AdminAnalyticsPage.tsx:93-204 | each metric equals its specification over the query answers: totals, average, growth, the top five of the per-name sales table, the six month rows under the page's test, and one share per status in first-occurrence order; the top products carry their totals, the status counts add up to the orders and the percentages to 100 |
| Checkout.FormErrors | src/pages/storefront/CheckoutPage.tsx:11-15 | no message iff name ≥ 2, phone ≥ 10 and address ≥ 10 characters; each message iff its field is too short |
| Checkout.OrderRow | src/pages/storefront/CheckoutPage.tsx:41-49 | the order row carries the submitted contact fields, the rendered cart total and status "pending" |
| Checkout.BuildOrderItems | src/pages/storefront/CheckoutPage.tsx:56-61 | one order line per cart line, in cart order, with the new order's id, the line's product and quantity, and the product's price |
| Checkout.OrderItemsKeepCartTotal | src/pages/storefront/CheckoutPage.tsx:56-61 | the written lines add up to the line totals the order summary shows |
| Checkout.TwoLineCartExample | src/pages/storefront/CheckoutPage.tsx:56-61 | a cart of 2 × 10.00 and 1 × 5.00 becomes two order lines worth 25.00 |
| Checkout.StockAfter | src/pages/storefront/CheckoutPage.tsx:70-79 | the stock updates change no product set: an update for an unknown id writes nothing |
| Checkout.StockAfterUntouched | src/pages/storefront/CheckoutPage.tsx:70-79 | a product no processed line refers to keeps its level |
| Checkout.StockAfterLastWrite | src/pages/storefront/CheckoutPage.tsx:73-76 | a product's level is its last line's snapshot stock minus that line's quantity |
| Checkout.StockIgnoresCurrentLevel | src/pages/storefront/CheckoutPage.tsx:73-76 | the levels written for cart products do not depend on what the table held |
| Checkout.StockCanGoNegative | src/pages/storefront/CheckoutPage.tsx:74 | buying 3 of a product whose snapshot shows 1 writes −2 |
| Checkout.ConcurrentCheckoutsLoseAnUpdate | src/pages/storefront/CheckoutPage.tsx:73-76 | two checkouts from the same snapshot of 10, buying 1 each, leave 9 |
| Checkout.StockUpdatesDone | src/pages/storefront/CheckoutPage.tsx:70-79 | the loop performs the updates up to, not including, the first failing one |
| Checkout.WriteStockLevels | src/pages/storefront/CheckoutPage.tsx:70-79 | the loop makes the updates of the lines before the first failing one, in cart order, and touches no other table |
| Checkout.SubmitOutcome | src/pages/storefront/CheckoutPage.tsx:31-90 | an empty cart ends at once; the order is placed iff the order insert, the lines insert and every stock update succeed |
| Checkout.StockWrites | src/pages/storefront/CheckoutPage.tsx:53-79 | no stock update happens unless both inserts succeeded; all happen when the order is placed |
| Checkout.FailureAfterOrderKeepsWrites | src/pages/storefront/CheckoutPage.tsx:53-87 | a failure after the order insert leaves the order written; a stock failure leaves the updates before it |
| Checkout.PlacedOrderWritesEveryLine | src/pages/storefront/CheckoutPage.tsx:70-83 | a placed order has written every cart product's new level |
| Checkout.FailedStockStepSkipsLaterLines | src/pages/storefront/CheckoutPage.tsx:78 | a failed stock update stops the loop: products only later lines refer to are untouched |
| Checkout.AlertsFor | src/pages/storefront/CheckoutPage.tsx:33-86 | an empty cart and a failure each show their one alert; a placed order shows none |
| Checkout.Database.constructor | src/pages/storefront/CheckoutPage.tsx:41-79 | the tables start with no orders and no lines |
| Checkout.Database.InsertOrder | src/pages/storefront/CheckoutPage.tsx:41-51 | an order row is stored under its new id; nothing else changes |
| Checkout.Database.InsertOrderItems | src/pages/storefront/CheckoutPage.tsx:63-65 | the lines are appended; nothing else changes |
| Checkout.Database.UpdateStock | src/pages/storefront/CheckoutPage.tsx:71-76 | the level of a known product is overwritten; an unknown id changes nothing |
| Checkout.CheckoutPage.constructor | src/pages/storefront/CheckoutPage.tsx:20 | the page starts not submitting, with no alert and no navigation |
| Checkout.CheckoutPage.OnSubmit | src/pages/storefront/CheckoutPage.tsx:31-90 | the outcome, and the orders, lines and stock written, are those of the submission's answers; the cart is cleared and the thank-you page receives the order id only when placed; earlier writes stay on failure; submitting is false again at the end |
| Checkout.CheckoutPage.HandleSubmit | src/pages/storefront/CheckoutPage.tsx:11-29 | an invalid form shows its messages and changes nothing; a valid one is submitted with every effect of `onSubmit` on the tables, the cart, the alerts, the navigation and the flag |

## Left out

- Database and network calls are not executed. Each answer, including the
  ids the database assigns, is a parameter. A failed insert or update is
  assumed to write nothing.
- The cart store is abstract. It is not part of this model.
  - `getTotalPrice` appears as the `totalPrice` parameter.
  - `addItem` records only its request.
  - `clearCart` empties the lines.
- Calendar arithmetic is abstract.
  - The period bounds, and the windows of the six months with their
    labels, are parameters (`windows`, `labels`).
  - The instant an order was created is a parameter (`timeOf`).
  - The period filters run inside the database queries, so the analytics
    model takes the period's rows as given.
- Money, averages, growth rates and percentages are `real`s, so
  floating-point rounding is not modelled. `toFixed` and the currency and
  date formatting are presentation and are left out.
- AdminAnalytics.PercentagesOfWhole: the percentages add up to exactly 100
  over the reals. The page's doubles can miss by a rounding error: counts 1
  and 2 give 99.99999999999999.
- AdminAnalytics.StatusPercentagesAddUp: exactly 100 over the reals only,
  for the same reason.
- AdminAnalytics.ComputeAnalytics: its sum of percentages is exact over the
  reals only. Its average and growth are exact quotients, where the page
  rounds each division to a double.
- AdminAnalytics.RevenueByMonth: the six month windows and names are
  parameters. The page derives them with `setMonth(getMonth() - i)` from
  today's date, which rolls over on days 29 to 31: on 31 October, one month
  back is 1 October. The six rows are then not six consecutive months. The
  model does not compute the calendar, so it does not capture this.
- AdminPixels.MaskId: lengths and positions count characters. `id.length`
  and `substring` count UTF-16 code units, so an id holding characters
  outside the Basic Multilingual Plane is masked differently.
- Text.ToLower: lower-cases ASCII letters only. `toLowerCase` also folds
  other scripts.
- Checkout.FormErrors: a length is counted in characters. JavaScript
  counts UTF-16 code units.
- AdminAnalytics.SortByRevenue: the sort is stable, but that is not
  proved. The contract states only the order by revenue and the
  permutation.
- Loading flags are left out of the analytics screen. So are the
  `isLoading`/`showModal` presentation of the order list and the `console`
  logging.
- The pixel settings' `loadSettings`/`saveSettings` are left out. They read
  and write browser storage and script globals. Only whether the scripts
  are loaded is kept, as the parameters of `TestPixel`.
- The rest of the pixel page's JSX is presentation.
- The product list fetch is not modelled. It is a query whose only
  behaviour is to keep or replace the list. The same shape is modelled for
  the order list (`AdminOrders.Loaded`).
- Concurrency between browser sessions is modelled only as two
  submissions in sequence (`Checkout.ConcurrentCheckoutsLoseAnUpdate`).

## Where the code and the intended behaviour differ

The model follows the code in each case.

- The intended search finds an order whose name, phone or id contains the
  term, ignoring case. The code lower-cases the name and
  the id but compares the phone as typed
  (`AdminOrders.PhoneIsCaseSensitive`).
- The intended item fetch shows no items after a failure. The code
  leaves the previous items on display (`AdminOrders.Loaded`).
- The intended checkout decrements each product's stored stock by the
  quantity ordered. The code writes the cart snapshot's level minus
  the quantity, whatever the stored level is now. This loses concurrent
  updates and can go negative (`Checkout.StockIgnoresCurrentLevel`,
  `Checkout.ConcurrentCheckoutsLoseAnUpdate`, `Checkout.StockCanGoNegative`).
- The intended order total equals the sum of its lines. The code stores the cart store's `getTotalPrice()`, which is not
  part of this model. The model proves that the lines add up to the line
  totals the checkout page shows (`Checkout.OrderItemsKeepCartTotal`).
- A status update for an id no order has is not an error in the code: the
  update matches no row and the list is reloaded.

The month table also follows the code's month test. The finding below
records where it differs from the intended test; the intended test is
modelled beside it (`AdminAnalytics.CorrectedMonthOrders`).

## Findings

| source | as written | input that shows it | evidently intended | confidence | as-written member | corrected member |
|---|---|---|---|---|---|---|
| src/pages/admin/AdminAnalyticsPage.tsx:159-168 | the month's end is `new Date(year, month + 1, 0)`, midnight at the start of the last day, and orders are kept when `orderDate <= monthEnd` | an order created on 31 January at 10:00 is counted in neither January nor February | every instant of the month is counted in that month | not executed | AdminAnalytics.LastDayOrdersAreDropped | AdminAnalytics.MonthsPartitionTime |

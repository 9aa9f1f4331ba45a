# Grocery bill app: a Dafny model of its analytics, lists, parsers and validators

The grocery bill app stores a user's bills. It has a Flask back end and a React front end.

The back end does several things:
- It aggregates the bills into monthly spending, a category breakdown, spending trends, the most purchased items and a next-month forecast (`BudgetAnalytics`).
- It tracks item prices over time (`PriceTracker`).
- It suggests a shopping list from recent purchases (`ShoppingListGenerator`).
- It reads bill items out of receipt text (`ReceiptOCRService`).
- It validates passwords, e-mail addresses and bill items.
- It computes subtotal, tax, total and discounts (`Calculator`, `Discount`).

The front end has three relevant screens:
- The analytics dashboard derives insights from one analytics snapshot: savings, status, top expense, month bars, category ranking, advice and recommended actions. It also keeps a small loading/refreshing/error state.
- The bill form keeps a list of items.
- The shopping-list screen keeps a set of checked names.

This project models each of those pieces in Dafny and proves what each promises.

## How the model is organised

| module | file | models |
|---|---|---|
| `Common` | common.dfy | `Option`, `Outcome`, and insertion-ordered dictionaries (`ODict`, like Python's `dict` and `defaultdict`). Also sums, counts, minimum and maximum over sequences. |
| `Text` | text.dfy | `strip`, `split('\n')`, `lower`, `in` on strings. Also the ASCII character classes of the regular expressions. |
| `Sorting` | sorting.dfy | the stable descending sort that `sorted(..., reverse=True)`, `Counter.most_common` and `Array.prototype.sort` perform, and the ascending sort by string key that `jsonify` applies to dictionary keys |
| `BillData` | bills.dfy | a stored bill and its item lines, with the `dict.get` defaults |
| `BudgetAnalytics` | budget_analytics.dfy | `backend/services/analytics.py` |
| `PriceTracking` | price_tracker.dfy | `backend/services/price_tracker.py` |
| `ShoppingLists` | shopping_list.dfy | `backend/services/shopping_list.py` |
| `ReceiptOcr` | ocr_service.dfy | `backend/services/ocr_service.py` |
| `Validators` | validators.dfy | `backend/utils/validators.py` |
| `Calculation`, `Discounts` | calculator.dfy, discount.dfy | `backend/services/calculator.py`, `backend/services/discount.py` |
| `Insights` | insights.dfy | the pure helpers of `src/components/Analytics.js`, and the snapshot `backend/routes/bills.py` sends |
| `AnalyticsScreen` | analytics_view.dfy | the fetch state of `src/components/Analytics.js` |
| `BillForm` | grocery_bill.dfy | `src/components/GroceryBill.js` |
| `ShoppingListScreen` | shopping_list_view.dfy | `src/components/ShoppingList.js` |

Modelling choices:
- Money is `real` and is stated before any `round(..., 2)` or `toFixed`. Quantities are `int`.
- A dictionary whose order the code relies on is an `ODict` while it is being built. It is returned as a sequence of `(key, value)` pairs with distinct keys, in insertion order. This covers monthly spending, category totals, counts and averages, the item tallies and the Counter.
- Key order on the wire. Flask's `jsonify` writes dictionary keys in sorted order, and `JSON.parse` keeps the order of the text. So the dashboard receives the category totals, counts and averages in ascending order of name (`Insights.WireBreakdown`), not in the order the back end built them. Ties in the top expense and in the category ranking therefore go by name. Months already arrive sorted.
- A date enters only as a month number (`Bill.month`, whose order is that of the `'%Y-%m'` keys) or as a comparable timestamp (`Bill.createdAt`, the shopping-list cutoff, the price record's date).
- A missing dictionary key is an `Option`. It reads as the default that `dict.get` gives at that use.
- Loops that accumulate are `method`s with loop invariants. Each is proved equal to a left-to-right fold that adds the last element. The properties are then lemmas about that fold.
- Mutable components are classes: `PriceTracker`, `AnalyticsView`, `GroceryBillForm` and `ShoppingListView`.
- A Python exception is the error case of an `Outcome` or an `Option`. This covers `ValueError` in the validators and `ZeroDivisionError` in `find_best_deals`.

Where the code's behaviour differs from what its UI text suggests, the model follows the code:
- Trend labels. The forecast labels a trend only `'increasing'` or `'decreasing'`, and a zero change counts as decreasing. `'stable'` never comes from the back end, so the dashboard's stable cases arise only when the forecast has no trend.
- The high-spending flag. The dashboard compares the STRING made by `toFixed(1)` with 25. So a category is flagged from 25.05 percent on, not from just above 25 percent (`Insights.HighSpendingThreshold`). With a zero sum, `Infinity` is flagged and `NaN` is not.
- Zero sums. Where the sum of totals is 0, the percentage is `Infinity` or `NaN` in the code. The model gives `None` there as the percentage, but keeps the flag as the code computes it.
- Concurrent fetches. The code has no guard against them, so the dashboard state is modelled as sequential start/success/failure transitions only.

## Model

| member | source | states |
|---|---|---|
| Sorting.SortDesc | backend/services/analytics.py:77-81 | `sorted(..., reverse=True)`: the result is ordered non-increasing by the key and is a permutation of the input |
| Sorting.SortDescStable | backend/services/price_tracker.py:73 | the sort is stable: the elements with any one key keep their input order |
| Sorting.SortDescHead | backend/services/analytics.py:77-81 | the first element after sorting is the first element of the input with the largest key |
| Sorting.SortByName | backend/routes/bills.py:118-124 | the order `jsonify` writes a dictionary's keys in: ascending by Python's string order, a permutation of the entries |
| Text.Split | backend/services/ocr_service.py:16 | `split('\n')` gives at least one piece, and no piece contains the separator |
| BudgetAnalytics.AddBillToMonth | backend/services/analytics.py:22 | one loop pass keeps the month dictionary well formed (keys distinct, in insertion order) |
| BudgetAnalytics.MonthAccumulatorSums | backend/services/analytics.py:12-22 | after the loop, each month that occurs maps to the sum of that month's bill totals, with a missing total read as 0; only months that occur are keys |
| BudgetAnalytics.MonthAccumulatorTotal | backend/services/analytics.py:12-22 | the month totals together add up to all bill totals |
| BudgetAnalytics.SortByMonthAscending | backend/services/analytics.py:24 | sorting the month entries gives strictly ascending months and is a permutation |
| BudgetAnalytics.CalculateMonthlySpending | backend/services/analytics.py:10-24 | the imperative loop computes exactly the month fold, then sorts it by month |
| BudgetAnalytics.MonthlySpendingMonths | backend/services/analytics.py:10-24 | one entry per distinct month of the bills, months strictly ascending |
| BudgetAnalytics.MonthlySpendingSums | backend/services/analytics.py:12-24 | each month's value is the sum of that month's bill totals |
| BudgetAnalytics.MonthlySpendingTotal | backend/services/analytics.py:10-24 | the monthly values add up to the sum of all bill totals |
| BudgetAnalytics.CategoryKeys | backend/services/analytics.py:28-38 | the totals and counts dictionaries have the same key list, in the same order |
| BudgetAnalytics.CategoryTotalsSums | backend/services/analytics.py:31-37 | each category's total is the sum of `price * quantity` over its lines (defaults 'General', 0 and 1) |
| BudgetAnalytics.CategoryCountsCount | backend/services/analytics.py:31-38 | each category's count is the number of its lines |
| BudgetAnalytics.CategoryCountsCover | backend/services/analytics.py:43-44 | every category with a total has a count of at least 1, so the average's division is defined |
| BudgetAnalytics.Averages | backend/services/analytics.py:43-44 | one average per category of the totals, in the totals' order; each average times its category's count gives back the category's total |
| BudgetAnalytics.GetCategoryBreakdown | backend/services/analytics.py:26-45 | the nested loops compute exactly the breakdown of all item lines, bill by bill |
| BudgetAnalytics.CategoryBreakdownKeys | backend/services/analytics.py:40-45 | totals, counts and averages share one key list, with one entry per category that occurs |
| BudgetAnalytics.CategoryBreakdownTotals | backend/services/analytics.py:31-41 | totals[c] is the sum of `price * quantity` over the lines of category c |
| BudgetAnalytics.CategoryBreakdownCounts | backend/services/analytics.py:38-44 | counts[c] is the number of c's lines (at least 1), and averages[c] = totals[c] / counts[c] |
| BudgetAnalytics.GetSpendingTrends | backend/services/analytics.py:47-62 | no bills gives no trends; otherwise it holds the bill count, the sum of totals, the mean, and a min and a max that are bill totals bounding every bill, with min ≤ average ≤ max |
| BudgetAnalytics.MonthlySumIsTotalSpent | backend/services/analytics.py:47-62 | the monthly figures add up to the trends' total spent |
| BudgetAnalytics.AddLineTally | backend/services/analytics.py:74-75 | one loop pass keeps the per-name tally dictionary well formed |
| BudgetAnalytics.ItemCountsSums | backend/services/analytics.py:66-75 | each name's count is the sum of its quantities (missing quantity 1) |
| BudgetAnalytics.ItemSpentSums | backend/services/analytics.py:66-75 | each name's spending is the sum of `price * quantity` over its lines |
| BudgetAnalytics.SliceStop | backend/services/analytics.py:89 | the end of the Python slice `[:limit]`: the limit clipped to the length, negative limits counted from the end |
| BudgetAnalytics.GetTopItems | backend/services/analytics.py:64-90 | the nested loops compute exactly the tally fold, then sort and cut it |
| BudgetAnalytics.RankedTalliesSums | backend/services/analytics.py:66-81 | the ranking has one entry per name that occurs, sorted non-increasing by count, each with its summed quantity and spending |
| BudgetAnalytics.TopItemsSpec | backend/services/analytics.py:64-90 | at most `limit` entries, no name twice, each name occurring in the bills with its summed count and spending |
| BudgetAnalytics.TopItemsOrdered | backend/services/analytics.py:77-81 | the result is ordered non-increasing by purchase count |
| BudgetAnalytics.TopItemsCut | backend/services/analytics.py:77-89 | a name left out was cut at the limit: the result is full, and every name kept was bought at least as often |
| BudgetAnalytics.PredictFromMonths | backend/services/analytics.py:96-111 | fewer than two months gives prediction 0, confidence low and no trend. Otherwise: trend = last − previous, prediction = last + trend, 'increasing' iff trend > 0 and 'decreasing' otherwise, confidence high iff abs(trend) < 0.2 · mean and medium otherwise |
| BudgetAnalytics.PredictNextMonthBudget | backend/services/analytics.py:92-111 | the forecast is made from the monthly spending |
| BudgetAnalytics.ForecastNeedsTwoMonths | backend/services/analytics.py:94-97 | a forecast has a trend iff two bills fall in different months |
| PriceTracking.AppendedSpec | backend/services/price_tracker.py:9-14 | recording a price adds one observation at the end of that item's history and changes no other history |
| PriceTracking.TrendOf | backend/services/price_tracker.py:21-47 | fewer than two prices gives insufficient data. Otherwise: latest and previous are the last two prices; min and max are prices bounding all of them; min ≤ avg ≤ max and min ≤ latest ≤ max; change = latest − previous; change percent = change / previous · 100 when previous > 0, else 0; trend up/down/stable by the sign of change; savings potential = latest − min ≥ 0 |
| PriceTracking.CheckDeal | backend/services/price_tracker.py:53-71 | an item gives a deal iff it has history and its price is strictly below a non-zero average. Savings = average − price > 0 and percent = savings / average · 100. A price below a zero average is the division error |
| PriceTracking.CollectDealsSpec | backend/services/price_tracker.py:51-71 | the loop raises iff some item hits the division error; otherwise every deal comes from an item, every deal-giving item's deal is collected, and there are at most as many deals as items |
| PriceTracking.CollectDealsSelection | backend/services/price_tracker.py:51-71 | without the error, the collected deals are, in item order, exactly one deal for each item whose check finds one: there are strictly increasing item positions, one per deal, covering every deal-giving item |
| PriceTracking.BestDealsRaises | backend/services/price_tracker.py:57-63 | `find_best_deals` raises iff an item with history is priced below an average of 0 |
| PriceTracking.BestDealsSound | backend/services/price_tracker.py:49-73 | every reported deal is an input item with history priced strictly below its average; deals are sorted non-increasing by the savings percent rounded to the cent; the result is a permutation of the collected deals, which hold exactly one deal per deal-giving item |
| PriceTracking.BestDealsComplete | backend/services/price_tracker.py:53-73 | every item priced below its historical average is reported |
| PriceTracking.PriceTracker.constructor | backend/services/price_tracker.py:6-7 | the history starts empty |
| PriceTracking.PriceTracker.AddItemPrice | backend/services/price_tracker.py:9-14 | the history becomes the appended history, keeping every recorded item non-empty |
| PriceTracking.PriceTracker.GetPriceTrend | backend/services/price_tracker.py:16-25 | `None` iff the item was never recorded; insufficient data iff it has fewer than two prices |
| PriceTracking.PriceTracker.FindBestDeals | backend/services/price_tracker.py:49-73 | the loop with its early exit computes exactly the collected deals sorted by their rounded savings percent, or the error |
| PriceTracking.BestDealsOrder | backend/services/price_tracker.py:70-73 | the order is non-increasing in the rounded percent, so an unrounded percent later in the list exceeds an earlier one by at most 0.01; deals whose rounded percents tie keep their collection order |
| PriceTracking.NoneStaysNone | backend/services/price_tracker.py:59-63 | once the loop has raised, the whole call raises |
| ShoppingLists.RecentBills | backend/services/shopping_list.py:17-22 | exactly the bills dated at or after the cutoff contribute |
| ShoppingLists.RecentBillsSingle | backend/services/shopping_list.py:17-22 | one bill is kept iff it is dated at or after the cutoff |
| ShoppingLists.RecentBillsAppend | backend/services/shopping_list.py:17-22 | the filter keeps bill order: the recent bills of a concatenation are the recent bills of each part, concatenated |
| ShoppingLists.FrequencyCounts | backend/services/shopping_list.py:17-25 | each name's frequency is the number of its lines in the recent bills |
| ShoppingLists.DetailsFirst | backend/services/shopping_list.py:27-32 | each name's details (category, price, quantity) are those of its first line |
| ShoppingLists.PriorityOf | backend/services/shopping_list.py:44 | 'high' iff frequency > 3, 'medium' iff 1 < frequency ≤ 3, 'low' iff frequency ≤ 1 |
| ShoppingLists.RankedNamesKnown | backend/services/shopping_list.py:36-37 | every ranked name has details, so the lookup never fails |
| ShoppingLists.GenerateSmartList | backend/services/shopping_list.py:9-47 | the loops over recent bills compute exactly the suggestion list of their item lines |
| ShoppingLists.TallyLines | backend/services/shopping_list.py:23-32 | the loop over one recent bill's items extends the frequency and first-details dictionaries by exactly those lines |
| ShoppingLists.BuildSuggestions | backend/services/shopping_list.py:35-45 | the appending loop produces exactly the suggestion list |
| ShoppingLists.MostCommonSpec | backend/services/shopping_list.py:36 | `most_common()` has one entry per distinct name, each with its count (at least 1) |
| ShoppingLists.SmartListNames | backend/services/shopping_list.py:36-46 | one suggestion per distinct name bought, ordered non-increasing by frequency |
| ShoppingLists.SmartListEntries | backend/services/shopping_list.py:36-45 | a suggestion's frequency is its name's line count, its priority follows the frequency, and its category, price and quantity come from the name's first line |
| ShoppingLists.DetectRunningLowItems | backend/services/shopping_list.py:49-58 | the loop computes exactly the low-stock list |
| ShoppingLists.LowStockMembers | backend/services/shopping_list.py:54-56 | a name is reported iff some inventory entry gives it quantity ≤ 2 |
| ShoppingLists.LowStockAppend | backend/services/shopping_list.py:54-58 | the report keeps inventory order: the report of a concatenation is the concatenation of the reports |
| ShoppingLists.GroupByCategory | backend/services/shopping_list.py:60-68 | the loop computes exactly the group fold |
| ShoppingLists.GroupsSpec | backend/services/shopping_list.py:62-66 | each occurring category (default 'General') has a group holding exactly that category's items, in input order |
| ShoppingLists.GroupsTotal | backend/services/shopping_list.py:62-68 | the group sizes add up to the number of items |
| ReceiptOcr.MatchAt | backend/services/ocr_service.py:10 | the greedy match of `\$?\d+\.?\d{0,2}` at a position: optional `$`, the longest run of digits, then an optional `.` with at most two digits |
| ReceiptOcr.Search | backend/services/ocr_service.py:24 | the leftmost position where the price pattern matches, or none if it matches nowhere |
| ReceiptOcr.MatchValue | backend/services/ocr_service.py:26-28 | the number the match denotes lies between its whole part and the whole part plus 1 |
| ReceiptOcr.FirstCategory | backend/services/ocr_service.py:58-60 | the first category, in the listed order, whose keyword list has a keyword in the text |
| ReceiptOcr.CategorizeSpec | backend/services/ocr_service.py:44-62 | case-insensitive keyword match; the first listed category with a match wins; 'General' iff no keyword occurs |
| ReceiptOcr.ParseLineSpec | backend/services/ocr_service.py:19-38 | a blank line or one without a price gives nothing. Otherwise an item appears iff the stripped text before the leftmost price is longer than 2 characters. The item has that name, the price's value, quantity 1 and the name's category |
| ReceiptOcr.ParseReceiptText | backend/services/ocr_service.py:13-42 | the loop computes exactly the items of the stripped text's lines |
| ReceiptOcr.ItemsOfLinesAppend | backend/services/ocr_service.py:18-40 | lines contribute independently and in order |
| ReceiptOcr.ItemsOfLinesSpec | backend/services/ocr_service.py:18-40 | at most one item per line, each item what its line yields |
| Text.Strip | backend/services/ocr_service.py:19 | the result is empty iff the line is all whitespace; otherwise it is a slice with whitespace only outside it and none at its ends |
| Text.StripIdempotent | backend/services/ocr_service.py:16-19 | stripping a stripped string changes nothing |
| Text.JoinSplit | backend/services/ocr_service.py:16 | splitting on a separator loses nothing: joining the pieces gives the text back |
| Text.Lower | backend/services/ocr_service.py:46 | lowering keeps the length, maps each character, and leaves no upper-case letter |
| Validators.Search | backend/utils/validators.py:13-22 | `re.search` of a character class finds a character iff the password has one of that class |
| Validators.ValidatePassword | backend/utils/validators.py:8-25 | valid iff length ≥ 8 and an upper-case letter, a lower-case letter, a digit and a listed special character all occur. A short password gets the length message; any other failure gets the message of the first failing check, taken in the order upper, lower, digit, special |
| Validators.ValidateEmailIff | backend/utils/validators.py:3-6 | accepted iff the string is a local part over `[a-zA-Z0-9._%+-]`, `@`, a domain over `[a-zA-Z0-9.-]`, `.`, and two or more letters to the end, optionally followed by one final newline (Python's `$`) |
| Validators.UserEmailSound | backend/utils/validators.py:37-42 | an accepted address has the form its regular expression describes, possibly followed by one final newline |
| Validators.UserEmailComplete | backend/utils/validators.py:37-42 | every address of that form is accepted, with or without one final newline |
| Validators.ValidateUserEmailIff | backend/utils/validators.py:37-42 | it raises iff the string is not a local part over `[a-zA-Z0-9_.+-]`, `@`, a host over `[a-zA-Z0-9-]`, `.`, and a suffix over `[a-zA-Z0-9-.]`, optionally followed by one final newline; the error is 'Invalid email format.' |
| Validators.ValidateItemPrice | backend/utils/validators.py:27-30 | raises iff price < 0, with its message |
| Validators.ValidateItemQuantity | backend/utils/validators.py:32-35 | raises iff quantity ≤ 0, with its message |
| Validators.CheckItem | backend/utils/validators.py:48-51 | one item passes iff it is a dictionary with both keys, price ≥ 0 and quantity > 0 |
| Validators.CheckItems | backend/utils/validators.py:47-51 | the loop passes iff every item is acceptable; otherwise it fails with the first unacceptable item's error |
| Validators.ValidateBillItems | backend/utils/validators.py:44-52 | accepts iff the argument is a non-empty list of acceptable items; not a list, or an empty list, gives the list message |
| Validators.ValidateBillItemsFirstError | backend/utils/validators.py:44-52 | the error is that of the first unacceptable item, shape before price before quantity |
| Calculation.Calculator.CalculateSubtotal | backend/services/calculator.py:5-12 | the loop computes the sum of `price * quantity` with defaults 0 and 1 |
| Calculation.DefaultTotal | backend/services/calculator.py:2-3 | `Calculator()` charges 8 percent: without a discount its total is subtotal · 1.08 |
| Calculation.SubtotalEmpty | backend/services/calculator.py:5-12 | an empty list costs 0 |
| Calculation.SubtotalAppend | backend/services/calculator.py:7-11 | the subtotal of two lists is the sum of their subtotals |
| Calculation.SubtotalPermutation | backend/services/calculator.py:7-11 | reordering the items does not change the subtotal |
| Calculation.SubtotalNonNegative | backend/services/calculator.py:7-11 | with no negative price or quantity the subtotal is not negative |
| Calculation.TotalWithTax | backend/services/calculator.py:14-22 | without a discount, total = subtotal · (1 + tax rate) |
| Calculation.ApplyDiscountBounds | backend/services/calculator.py:24-27 | for 0 ≤ p ≤ 100 and a non-negative total, the result lies between 0 and the total |
| Calculation.ApplyDiscountEdges | backend/services/calculator.py:24-27 | p = 0 leaves the total unchanged, and p = 100 gives 0 |
| Discounts.DiscountBounds | backend/services/discount.py:5-10 | for 0 ≤ percentage ≤ 100 and t ≥ 0, both the discount and the remainder lie between 0 and t |
| Discounts.DiscountAgreesWithCalculator | backend/services/discount.py:8-10 | before rounding, the result equals `Calculator.apply_discount(t, percentage)` |
| Insights.WireBreakdownOrder | backend/routes/bills.py:118-124 | the breakdown the dashboard receives holds the same entries as the one computed, with each category once, in ascending order of name |
| Insights.SnapshotSections | backend/routes/bills.py:116-124 | for the snapshot of a user's bills: trends and months exist iff there are bills, a breakdown and top items exist iff there are item lines, and a forecast always exists |
| Insights.SavingsOpportunity | src/components/Analytics.js:47-57 | absent iff there is no breakdown or the weighted sum is ≤ 0; otherwise positive and equal to 0.3·Snacks + 0.2·Beverages + 0.25·'Processed Foods', missing keys read as 0 |
| Insights.TotalOfBreakdown | src/components/Analytics.js:51-54 | a category's entry in the totals of bills, in whatever order they arrive, is the sum of its lines, and an absent category reads as 0 |
| Insights.SavingsFromBills | src/components/Analytics.js:47-57 | for real bills, the savings are the weighted sums of the snack, beverage and processed-food lines |
| Insights.GetSpendingStatus | src/components/Analytics.js:60-84 | absent iff there is no forecast; warning iff the trend is increasing with an amount that, rounded to the cent, is > 500; success iff decreasing; neutral in every other case |
| Insights.StatusFromBills | src/components/Analytics.js:60-84 | for real bills: warning iff the latest month beats the one before by more than 500.005, success iff it does not beat it, neutral with fewer than two months or a rise of at most 500.005 |
| Insights.StatusOfMonths | src/components/Analytics.js:60-84 | the same three cases for any snapshot whose forecast was made from the given monthly totals |
| Insights.RoundedAbove500 | backend/services/analytics.py:110 | the rise sent as `round(trend, 2)` exceeds 500 iff the unrounded rise exceeds 500.005 |
| Common.Round2 | backend/services/analytics.py:110 | `round(x, 2)` lies within half a cent of `x` |
| Common.Round2Monotone | backend/services/price_tracker.py:70 | rounding to the cent never reverses an order |
| Common.Round2Order | backend/services/price_tracker.py:70-73 | if the rounded value of `x` is at least that of `y`, then `x >= y - 0.01` |
| Insights.TopExpenseSpec | src/components/Analytics.js:86-98 | absent for empty totals. Otherwise it is an entry no other total exceeds, and the first of the largest ones (the sort is stable). Its percentage is amount / Σtotals · 100, absent for a zero sum |
| Insights.MonthlyBarsChanges | src/components/Analytics.js:232-245 | the first bar shows no change. Every other bar has change = amount − previous amount and percent = change / previous · 100 when previous > 0, else 0. It reads as rising iff change ≥ 0 |
| Insights.MonthlyBarsWidths | src/components/Analytics.js:233-234 | with no negative month every width lies in [0, 100], and a largest positive month fills its bar |
| Insights.MonthlyBarsWidthValue | src/components/Analytics.js:233-234 | for a largest month `mx`, each bar's width is `amount / mx * 100` when `mx` is positive and 0 otherwise, so with all months at zero every width is 0 |
| Insights.HighSpendingThreshold | src/components/Analytics.js:281-282 | with a non-zero sum, a category is flagged iff its share is at least 25.05 percent (the share is rounded to one decimal before the comparison with 25) |
| Insights.CategoryRankingSpec | src/components/Analytics.js:277-281 | the ranking is a permutation of the totals, sorted non-increasing, with equal totals in their original order, and each entry carries its share of Σtotals |
| Insights.CategoryRankingFlags | src/components/Analytics.js:277-282 | each entry is flagged as the comparison of its rounded share with 25 decides; with a zero sum, iff its total is positive |
| Insights.AdviceFor | src/components/Analytics.js:382-396 | increasing suggests saving 0.3 · trend amount; decreasing reports abs(trend amount) as saved; otherwise the fixed 10% tip |
| Insights.AdviceFromBills | src/components/Analytics.js:382-396 | for real bills: fewer than two months gives the fixed tip (and only then); otherwise the saving tip or the saved report carries its amount |
| Insights.RecommendedActionsSpec | src/components/Analytics.js:414-450 | the actions come in the fixed order, each at most once. 'Reduce non-essentials' appears iff the savings exceed 100. 'Buy in bulk' appears iff there are top items. 'Create a shopping list' appears iff the trend is increasing. 'Set a budget goal' of 0.9 · average (0 without trends) is always last |
| AnalyticsScreen.ScreenOf | src/components/Analytics.js:101-103 | loading wins over an error, an error (a non-empty text) over missing data, and the dashboard shows only with none of them |
| AnalyticsScreen.FailureText | src/components/Analytics.js:34-36 | a failure shows the server's error text, or 'Failed to load analytics' when that is missing or empty, so the shown error is never empty |
| AnalyticsScreen.AnalyticsView.constructor | src/components/Analytics.js:6-10 | the component starts loading, with no snapshot, no error and no update time |
| AnalyticsScreen.AnalyticsView.StartFetch | src/components/Analytics.js:22-29 | a refresh sets `refreshing` and keeps the screen as it was; a first load sets `loading` |
| AnalyticsScreen.AnalyticsView.FetchSucceeded | src/components/Analytics.js:30-33 | success replaces the snapshot, clears the error, records the time and clears both busy flags; the dashboard shows |
| AnalyticsScreen.AnalyticsView.FetchFailed | src/components/Analytics.js:34-40 | failure sets the error, keeps the previous snapshot and time, and clears both busy flags; the error shows |
| AnalyticsScreen.AnalyticsView.Fetch | src/components/Analytics.js:22-41 | after a whole fetch both busy flags are clear, and the screen is the dashboard of the new snapshot or the error |
| AnalyticsScreen.FinishedScreen | src/components/Analytics.js:22-41 | a finished fetch never leaves the loading text or the no-data note on screen |
| BillForm.ItemOf | src/components/GroceryBill.js:35-40 | the added item carries the typed name, price and quantity; an empty category becomes 'General' |
| BillForm.WithoutIndexSpec | src/components/GroceryBill.js:47-50 | filtering out index i of a list is the part before i followed by the part after it; an index outside the list leaves it unchanged |
| BillForm.AddThenRemove | src/components/GroceryBill.js:42-49 | removing the item just added gives back the earlier list |
| BillForm.GroceryBillForm.constructor | src/components/GroceryBill.js:8-19 | the form starts with no items, an empty input and no messages |
| BillForm.GroceryBillForm.AddItem | src/components/GroceryBill.js:29-45 | a missing name, price or quantity only sets 'Please fill in all item fields'. Otherwise exactly one item is appended at the end, earlier items are unchanged, the input is reset and the error is cleared |
| BillForm.GroceryBillForm.RemoveItem | src/components/GroceryBill.js:47-50 | exactly the item at the index goes and the rest keep their order; an out-of-range index changes nothing |
| BillForm.GroceryBillForm.StartCalculate | src/components/GroceryBill.js:52-59 | an empty list is refused with 'Please add at least one item'; otherwise loading starts with the error cleared |
| BillForm.GroceryBillForm.StartSave | src/components/GroceryBill.js:71-84 | an empty list is refused first, then a missing or empty user id with the log-in message; otherwise loading starts with error and success message cleared |
| ShoppingListScreen.ToggledFlips | src/components/ShoppingList.js:30-35 | toggling flips whether the name is checked |
| ShoppingListScreen.ToggledOthers | src/components/ShoppingList.js:30-36 | toggling leaves every other name's membership unchanged |
| ShoppingListScreen.ToggledTwice | src/components/ShoppingList.js:29-37 | toggling a name twice restores the set |
| ShoppingListScreen.ShoppingListView.constructor | src/components/ShoppingList.js:10 | nothing is checked at first |
| ShoppingListScreen.ShoppingListView.ToggleItem | src/components/ShoppingList.js:29-37 | the checked set becomes the toggled copy: the name flips and nothing else changes |
| ShoppingListScreen.PriorityColors | src/components/ShoppingList.js:39-46 | the three priorities the back end sends get three distinct colours, none of them the grey every other text gets |
| ShoppingListScreen.EstimatedTotalAppend | src/components/ShoppingList.js:122-124 | the estimate of two lists of suggestions is the sum of their estimates |
| ShoppingListScreen.EstimatedTotalNonNegative | src/components/ShoppingList.js:122-124 | with no negative price or quantity the estimate is not negative |

## Left out

- Rounding: where `round(..., 2)`, `toFixed` and `toLocaleTimeString` only format a display, amounts are stated before rounding. Three decisions use rounded values, and the model rounds there: the high-spending flag compares a `toFixed(1)` string; `find_best_deals` sorts by the stored `round(savings_percent, 2)` (price_tracker.py:70,73); the spending status compares `trend_amount`, sent as `round(trend, 2)` (analytics.py:110), with 500 (Analytics.js:65).
- Round2: Python's `round(x, 2)` is modelled as round-half-to-even of `x * 100` on exact reals. The binary floating-point representation, which decides some halfway cases differently, is not modelled.
- Floating point: amounts are exact reals, so floating-point error and overflow are not modelled.
- Median and standard deviation of `get_spending_trends`: they need floating-point statistics and a square root.
- Dates and the clock: date parsing, `strftime`, `datetime.now()` and `new Date()` are left out. Month numbers, timestamps, the shopping-list cutoff and the update time are parameters.
- `created_at` missing or not a date: the model assumes every bill has a date.
- Names: an item name missing from a bill (Python's `None` key) is not modelled; names are strings.
- Values of the wrong type: a non-number price or quantity reaching the validators or the arithmetic (a Python `TypeError`) is not modelled. Prices and quantities are numbers, and a missing key is `None`.
- ASCII only: the regular expressions' `\d`, `str.isspace` and `str.lower` are modelled for ASCII characters. Python's Unicode digits, spaces and case mappings are not modelled.
- ReceiptOcr.MatchValue: states only that the value lies between the whole part and the whole part plus 1, not the exact decimal value of `float(...)`.
- Parsing form fields: `parseFloat` and `parseInt` in the bill form are left out. A filled field holds its number, and an empty field is `None`.
- JavaScript key order: object keys that look like integers would be reordered by JavaScript; category and month keys are assumed not to look like integers.
- Timers and overlapping fetches: the 30-second auto-refresh, its teardown and overlapping fetches are concurrency. The code has no guard that orders responses, so only sequential fetches are modelled.
- Rendering: JSX, CSS classes, the per-item "buy in bulk" badge and the average-per-item text are left out.
- The requests behind the bill form's calculate and save buttons, their results, and the delayed form reset after a save are left out. They are calls to the server and a timer.
- The dashboard reads snapshots of the shape the back end sends. So the trend is only increasing or decreasing, and a forecast carries a trend amount exactly when it carries a trend.
- The admin role rule in `backend/routes/auth.py`, and the rest of the routes, models, authentication and database code, are not part of this model.
- `decode_image` (base64 and the imaging library) and the receipt scanner screen are not part of this model.
- The fetch of the shopping list itself is left out; a screen state like the dashboard's would follow the same pattern.

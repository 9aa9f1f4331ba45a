/** The insights the dashboard (`src/components/Analytics.js`) derives from
    one analytics snapshot: potential savings, spending status, the biggest
    expense, the month-by-month bars, the category ranking, the advice under
    the forecast and the recommended actions. Amounts are stated before
    `toFixed`, except where a rounded string is compared with a number. */
module Insights {
  import opened Common
  import opened Sorting
  import opened BillData
  import opened BudgetAnalytics

  /** The response of the analytics route: the five results of
      `BudgetAnalytics`, each of which the dashboard treats as possibly absent. */
  datatype Snapshot = Snapshot(
    monthlySpending: Option<seq<(int, real)>>,
    categoryBreakdown: Option<CategoryBreakdown>,
    spendingTrends: Option<SpendingTrends>,
    topItems: Option<seq<TopItem>>,
    budgetPrediction: Option<BudgetPrediction>)

  /** The breakdown as the dashboard receives it: `jsonify` writes the keys
      of each dictionary in sorted order, and `JSON.parse` keeps the order of
      the text. */
  function WireBreakdown(b: CategoryBreakdown): CategoryBreakdown
  {
    CategoryBreakdown(SortByName(b.totals), SortByName(b.counts), SortByName(b.averages))
  }

  /** The snapshot that `get_analytics` sends for a user's bills. The month
      totals already come in ascending order of their keys. */
  function SnapshotOf(bills: seq<Bill>): Snapshot
  {
    Snapshot(
      Some(MonthlyTotals(bills)),
      Some(WireBreakdown(Breakdown(LinesOf(bills)))),
      GetSpendingTrends(bills),
      Some(TopItems(LinesOf(bills), DefaultTopItemsLimit)),
      Some(PredictFromMonths(MonthlyTotals(bills))))
  }

  function CategoryValue(e: (string, real)): real
  {
    e.1
  }

  /** `Object.values(totals).reduce((sum, val) => sum + val, 0)` */
  function SumOfTotals(totals: seq<(string, real)>): real
  {
    TotalBy(totals, CategoryValue)
  }

  // ----- which sections have data -----------------------------------------

  predicate HasMonthlySpending(s: Snapshot)
  {
    s.monthlySpending.Some? && |s.monthlySpending.value| > 0
  }

  predicate HasCategoryBreakdown(s: Snapshot)
  {
    s.categoryBreakdown.Some? && |s.categoryBreakdown.value.totals| > 0
  }

  /** `spending_trends.total_spent !== undefined`: the back end sends `{}` without bills. */
  predicate HasSpendingTrends(s: Snapshot)
  {
    s.spendingTrends.Some?
  }

  predicate HasTopItems(s: Snapshot)
  {
    s.topItems.Some? && |s.topItems.value| > 0
  }

  /** `budget_prediction.prediction !== undefined`: every forecast has a prediction. */
  predicate HasBudgetPrediction(s: Snapshot)
  {
    s.budgetPrediction.Some?
  }

  /** For a snapshot of bills: trends, months and a breakdown exist exactly
      when there are bills (or item lines), and a forecast always exists. */
  lemma SnapshotSections(bills: seq<Bill>)
    ensures HasSpendingTrends(SnapshotOf(bills)) <==> bills != []
    ensures HasMonthlySpending(SnapshotOf(bills)) <==> bills != []
    ensures HasCategoryBreakdown(SnapshotOf(bills)) <==> LinesOf(bills) != []
    ensures HasTopItems(SnapshotOf(bills)) <==> LinesOf(bills) != []
    ensures HasBudgetPrediction(SnapshotOf(bills))
  {
    MonthsSection(bills);
    BreakdownSection(LinesOf(bills));
    TopItemsSection(LinesOf(bills));
  }

  /** There is a month to show exactly when there is a bill. */
  lemma MonthsSection(bills: seq<Bill>)
    ensures |MonthlyTotals(bills)| > 0 <==> bills != []
  {
    MonthlySpendingMonths(bills);
    KeySetEmpty(bills, BillMonth);
    KeySetOfEmpty(MonthlyTotals(bills));
  }

  /** There is a category total exactly when there is an item line. */
  lemma BreakdownSection(lines: seq<BillItem>)
    ensures |Breakdown(lines).totals| > 0 <==> lines != []
  {
    CategoryBreakdownKeys(lines);
    KeySetEmpty(lines, ItemCategory);
    KeySetOfEmpty(Breakdown(lines).totals);
  }

  /** There is a top item exactly when there is an item line. */
  lemma TopItemsSection(lines: seq<BillItem>)
    ensures |TopItems(lines, DefaultTopItemsLimit)| > 0 <==> lines != []
  {
    var ranked := RankedTallies(lines);
    RankedFromTallies(lines);
    ItemCountsSums(lines);
    KeySetEmpty(lines, ItemName);
    KeySetOfEmpty(ranked);
  }

  /** A set of keys is empty exactly when the sequence is. */
  lemma KeySetEmpty<T, K>(s: seq<T>, key: T -> K)
    ensures KeySet(s, key) == {} <==> s == []
  {
    if s != [] {
      assert key(s[|s| - 1]) in KeySet(s, key);
    }
  }

  lemma KeySetOfEmpty<K, V>(s: seq<(K, V)>)
    ensures KeySetOf(s) == {} <==> s == []
  {
    if s != [] {
      assert s[0].0 in KeySetOf(s);
    }
  }

  // ----- calculateSavingsOpportunity --------------------------------------

  /** `totals[category] || 0` */
  function TotalOf(totals: seq<(string, real)>, category: string): real
  {
    match Lookup(totals, category)
    case None => 0.0
    case Some(v) => v
  }

  /** The weighted sum the dashboard calls the potential savings. */
  function PotentialSavings(totals: seq<(string, real)>): real
  {
    TotalOf(totals, "Snacks") * 0.3 + TotalOf(totals, "Beverages") * 0.2 + TotalOf(totals, "Processed Foods") * 0.25
  }

  function SavingsOpportunity(s: Snapshot): (r: Option<real>)
    ensures r.None? <==> s.categoryBreakdown.None? || PotentialSavings(s.categoryBreakdown.value.totals) <= 0.0
    ensures r.Some? ==> r.value > 0.0 && r.value == PotentialSavings(s.categoryBreakdown.value.totals)
  {
    if s.categoryBreakdown.None? then None
    else
      var p := PotentialSavings(s.categoryBreakdown.value.totals);
      if p > 0.0 then Some(p) else None
  }

  /** A category's entry in the totals of bills, in any order, is the sum of
      its lines, and a category that does not occur reads as 0. */
  lemma TotalOfBreakdown(lines: seq<BillItem>, t: seq<(string, real)>, category: string)
    requires multiset(t) == multiset(Breakdown(lines).totals)
    ensures TotalOf(t, category) == KeySum(lines, ItemCategory, category, LineAmount)
  {
    var b := Breakdown(lines).totals;
    KeySetOfPermutation(b, t);
    CategoryBreakdownKeys(lines);
    var r := Lookup(t, category);
    if r.None? {
      assert category !in KeySetOf(t);
      KeySumAbsent(lines, ItemCategory, category, LineAmount);
    } else {
      var i :| 0 <= i < |t| && t[i] == (category, r.value);
      assert t[i] in multiset(b);
      var j :| 0 <= j < |b| && b[j] == t[i];
      CategoryBreakdownTotals(lines);
      assert b[j].1 == KeySum(lines, ItemCategory, b[j].0, LineAmount);
    }
  }

  /** The dashboard receives each category once, in strictly ascending order
      of name, with the figures `get_category_breakdown` computed for it. */
  lemma WireBreakdownOrder(lines: seq<BillItem>)
    ensures var b := Breakdown(lines);
      var w := WireBreakdown(b);
      && multiset(w.totals) == multiset(b.totals)
      && multiset(w.counts) == multiset(b.counts)
      && multiset(w.averages) == multiset(b.averages)
      && SortedByName(w.totals) && DistinctKeys(w.totals)
  {
    var b := Breakdown(lines);
    var w := WireBreakdown(b);
    CategoryBreakdownKeys(lines);
    DistinctKeysPermutation(b.totals, w.totals);
  }

  /** For the bills themselves: 30% of snack lines, 20% of beverage lines and
      25% of processed-food lines, each line counted as `price * quantity`. */
  lemma SavingsFromBills(bills: seq<Bill>)
    ensures var lines := LinesOf(bills);
      PotentialSavings(SnapshotOf(bills).categoryBreakdown.value.totals)
        == KeySum(lines, ItemCategory, "Snacks", LineAmount) * 0.3
         + KeySum(lines, ItemCategory, "Beverages", LineAmount) * 0.2
         + KeySum(lines, ItemCategory, "Processed Foods", LineAmount) * 0.25
  {
    var lines := LinesOf(bills);
    var t := SnapshotOf(bills).categoryBreakdown.value.totals;
    TotalOfBreakdown(lines, t, "Snacks");
    TotalOfBreakdown(lines, t, "Beverages");
    TotalOfBreakdown(lines, t, "Processed Foods");
  }

  // ----- getSpendingStatus ------------------------------------------------

  datatype SpendingStatus = Warning | Success | Neutral

  /** The message and the suggested action shown with each status. */
  function StatusText(st: SpendingStatus): (string, string)
  {
    match st
    case Warning => ("⚠️ Your spending is increasing significantly", "Consider reviewing your budget")
    case Success => ("✅ Great job! Your spending is decreasing", "Keep up the good habits")
    case Neutral => ("📊 Your spending is stable", "Monitor your trends")
  }

  function GetSpendingStatus(s: Snapshot): (r: Option<SpendingStatus>)
    ensures r.None? <==> s.budgetPrediction.None?
    ensures r == Some(Warning) <==>
              && s.budgetPrediction.Some?
              && s.budgetPrediction.value.trend == Some(Increasing)
              && s.budgetPrediction.value.trendAmount.Some?
              && Round2(s.budgetPrediction.value.trendAmount.value) > 500.0
    ensures r == Some(Success) <==> s.budgetPrediction.Some? && s.budgetPrediction.value.trend == Some(Decreasing)
  {
    if s.budgetPrediction.None? then None
    else
      var p := s.budgetPrediction.value;
      if p.trend == Some(Increasing) && p.trendAmount.Some? && Round2(p.trendAmount.value) > 500.0 then Some(Warning)
      else if p.trend == Some(Decreasing) then Some(Success)
      else Some(Neutral)
  }

  /** `trend_amount` arrives as `round(trend, 2)`, so it exceeds 500 exactly
      when the rise is above 500.005 (500.005 itself rounds to the even 500.00). */
  lemma RoundedAbove500(x: real)
    ensures Round2(x) > 500.0 <==> x > 500.005
  {
    if x <= 500.005 {
      var y := x * 100.0;
      assert (50000.5).Floor == 50000;
      RoundHalfEvenMonotone(y, 50000.5);
    }
  }

  /** For the bills themselves, with `m` the monthly totals: a warning when the
      latest month exceeds the one before by more than 500.005 (the rise is
      rounded to the cent before it is compared with 500), success when it
      does not exceed it, and neutral with fewer than two months or a smaller
      rise. */
  lemma StatusFromBills(bills: seq<Bill>)
    ensures var m := MonthlyTotals(bills);
      var st := GetSpendingStatus(SnapshotOf(bills));
      && (st == Some(Warning) <==> |m| >= 2 && m[|m| - 1].1 - m[|m| - 2].1 > 500.005)
      && (st == Some(Success) <==> |m| >= 2 && m[|m| - 1].1 <= m[|m| - 2].1)
      && (st == Some(Neutral) <==> |m| < 2 || 0.0 < m[|m| - 1].1 - m[|m| - 2].1 <= 500.005)
  {
    StatusOfMonths(MonthlyTotals(bills), SnapshotOf(bills));
  }

  /** The status of any snapshot whose forecast was made from the months `m`. */
  lemma StatusOfMonths(m: seq<(int, real)>, s: Snapshot)
    requires s.budgetPrediction == Some(PredictFromMonths(m))
    ensures var st := GetSpendingStatus(s);
      && (st == Some(Warning) <==> |m| >= 2 && m[|m| - 1].1 - m[|m| - 2].1 > 500.005)
      && (st == Some(Success) <==> |m| >= 2 && m[|m| - 1].1 <= m[|m| - 2].1)
      && (st == Some(Neutral) <==> |m| < 2 || 0.0 < m[|m| - 1].1 - m[|m| - 2].1 <= 500.005)
  {
    if |m| >= 2 {
      RoundedAbove500(m[|m| - 1].1 - m[|m| - 2].1);
    }
  }

  // ----- getTopExpenseCategory --------------------------------------------

  /** `{category, amount, percentage}`; the percentage is `None` where the sum
      of all totals is 0 and JavaScript's division gives no finite number. */
  datatype TopExpense = TopExpense(category: string, amount: real, percentage: Option<real>)

  /** `amount / total * 100` */
  function Share(amount: real, total: real): Option<real>
  {
    if total == 0.0 then None else Some(amount / total * 100.0)
  }

  function TopExpenseOf(totals: seq<(string, real)>): Option<TopExpense>
  {
    if totals == [] then None
    else
      var top := SortDesc(totals, CategoryValue)[0];
      Some(TopExpense(top.0, top.1, Share(top.1, SumOfTotals(totals))))
  }

  function GetTopExpenseCategory(s: Snapshot): Option<TopExpense>
  {
    if s.categoryBreakdown.None? then None else TopExpenseOf(s.categoryBreakdown.value.totals)
  }

  /** No categories, no top expense; otherwise it is an entry of the totals
      that no other entry exceeds, the first of the largest ones, with its
      share of the sum of all totals. */
  lemma TopExpenseSpec(totals: seq<(string, real)>)
    ensures TopExpenseOf(totals).None? <==> totals == []
    ensures TopExpenseOf(totals).Some? ==>
      var t := TopExpenseOf(totals).value;
      && (forall j | 0 <= j < |totals| :: totals[j].1 <= t.amount)
      && (exists i | 0 <= i < |totals| ::
            && totals[i] == (t.category, t.amount)
            && forall j | 0 <= j < i :: totals[j].1 < t.amount)
      && t.percentage == Share(t.amount, SumOfTotals(totals))
  {
    if totals != [] {
      SortDescHead(totals, CategoryValue);
      var i := FirstMaxIndex(totals, CategoryValue);
      assert forall j | 0 <= j < |totals| :: CategoryValue(totals[j]) <= CategoryValue(totals[i]);
      assert forall j | 0 <= j < i :: CategoryValue(totals[j]) < CategoryValue(totals[i]);
    }
  }

  // ----- the month bars ---------------------------------------------------

  /** One bar of the monthly chart: its width in percent of the largest
      month, the change from the month before and that change in percent,
      whether the change is shown, and whether it reads as an increase. */
  datatype MonthBar = MonthBar(
    month: int,
    amount: real,
    width: real,
    change: real,
    changePercent: real,
    showsChange: bool,
    rising: bool)

  function BarAt(m: seq<(int, real)>, i: nat, maxAmount: real): MonthBar
    requires i < |m|
  {
    var amount := m[i].1;
    var width := if maxAmount > 0.0 then amount / maxAmount * 100.0 else 0.0;
    var prev := if i > 0 then m[i - 1].1 else amount;
    var change := amount - prev;
    var changePercent := if prev > 0.0 then change / prev * 100.0 else 0.0;
    MonthBar(m[i].0, amount, width, change, changePercent, i > 0, change >= 0.0)
  }

  function BarsFrom(m: seq<(int, real)>, maxAmount: real): seq<MonthBar>
  {
    seq(|m|, i requires 0 <= i < |m| => BarAt(m, i, maxAmount))
  }

  /** `Object.entries(monthly_spending).map(...)`, against `Math.max` of all months. */
  function MonthlyBars(m: seq<(int, real)>): (r: seq<MonthBar>)
    ensures |r| == |m|
  {
    if m == [] then [] else BarsFrom(m, MaxBy(m, EntryAmount))
  }

  /** The change a bar shows, for any largest month. */
  lemma BarChange(m: seq<(int, real)>, i: nat, mx: real)
    requires 0 < i < |m|
    ensures var bar := BarAt(m, i, mx);
      && bar.month == m[i].0 && bar.amount == m[i].1
      && bar.showsChange
      && bar.change == m[i].1 - m[i - 1].1
      && bar.changePercent == (if m[i - 1].1 > 0.0 then (m[i].1 - m[i - 1].1) / m[i - 1].1 * 100.0 else 0.0)
      && (bar.rising <==> m[i - 1].1 <= m[i].1)
  {
  }

  /** The first bar shows no change; every other bar compares with the month
      before it, in percent of that month when it is positive. */
  lemma MonthlyBarsChanges(m: seq<(int, real)>)
    ensures var r := MonthlyBars(m);
      && (m != [] ==> r[0].change == 0.0 && r[0].changePercent == 0.0 && !r[0].showsChange)
      && forall i | 0 < i < |m| ::
           && r[i].month == m[i].0 && r[i].amount == m[i].1
           && r[i].showsChange
           && r[i].change == m[i].1 - m[i - 1].1
           && r[i].changePercent == (if m[i - 1].1 > 0.0 then (m[i].1 - m[i - 1].1) / m[i - 1].1 * 100.0 else 0.0)
           && (r[i].rising <==> m[i - 1].1 <= m[i].1)
  {
    if m != [] {
      var mx := MaxBy(m, EntryAmount);
      var r := MonthlyBars(m);
      assert r == BarsFrom(m, mx);
      forall i | 0 < i < |m|
        ensures && r[i].month == m[i].0 && r[i].amount == m[i].1
                && r[i].showsChange
                && r[i].change == m[i].1 - m[i - 1].1
                && r[i].changePercent == (if m[i - 1].1 > 0.0 then (m[i].1 - m[i - 1].1) / m[i - 1].1 * 100.0 else 0.0)
                && (r[i].rising <==> m[i - 1].1 <= m[i].1)
      {
        BarChange(m, i, mx);
      }
    }
  }

  /** A bar's width, for a month between 0 and the largest month. */
  lemma BarWidth(m: seq<(int, real)>, i: nat, mx: real)
    requires i < |m| && 0.0 <= m[i].1 && (mx > 0.0 ==> m[i].1 <= mx)
    ensures 0.0 <= BarAt(m, i, mx).width <= 100.0
    ensures m[i].1 == mx && mx > 0.0 ==> BarAt(m, i, mx).width == 100.0
  {
    if mx > 0.0 {
      DivAtMostOne(m[i].1, mx);
      assert mx / mx == 1.0;
    }
  }

  lemma DivAtMostOne(a: real, b: real)
    requires 0.0 <= a <= b && b > 0.0
    ensures 0.0 <= a / b <= 1.0
  {
    var q := a / b;
    assert q * b == a;
    assert q * b <= 1.0 * b;
  }

  /** One bar of the chart, when no month is negative. */
  lemma MonthlyBarWidth(m: seq<(int, real)>, i: nat)
    requires forall j | 0 <= j < |m| :: m[j].1 >= 0.0
    requires i < |m|
    ensures 0.0 <= MonthlyBars(m)[i].width <= 100.0
  {
    var mx := MaxBy(m, EntryAmount);
    assert MonthlyBars(m)[i] == BarAt(m, i, mx);
    assert EntryAmount(m[i]) <= mx;
    BarWidth(m, i, mx);
  }

  /** A positive month that no other month exceeds fills its bar. */
  lemma MonthlyBarFull(m: seq<(int, real)>, i: nat)
    requires i < |m| && m[i].1 > 0.0
    requires forall j | 0 <= j < |m| :: m[j].1 <= m[i].1
    ensures MonthlyBars(m)[i].width == 100.0
  {
    var mx := MaxBy(m, EntryAmount);
    var k :| 0 <= k < |m| && mx == EntryAmount(m[k]);
    assert EntryAmount(m[i]) <= mx;
    assert mx == m[i].1;
    assert MonthlyBars(m)[i] == BarAt(m, i, mx);
    BarWidth(m, i, mx);
  }

  /** With no negative month, every width lies between 0 and 100, and a
      largest positive month fills its bar. */
  lemma MonthlyBarsWidths(m: seq<(int, real)>)
    requires forall i | 0 <= i < |m| :: m[i].1 >= 0.0
    ensures forall i | 0 <= i < |m| :: 0.0 <= MonthlyBars(m)[i].width <= 100.0
    ensures forall i | 0 <= i < |m| && m[i].1 > 0.0 && (forall j | 0 <= j < |m| :: m[j].1 <= m[i].1) ::
              MonthlyBars(m)[i].width == 100.0
  {
    forall i | 0 <= i < |m|
      ensures 0.0 <= MonthlyBars(m)[i].width <= 100.0
    {
      MonthlyBarWidth(m, i);
    }
    forall i | 0 <= i < |m| && m[i].1 > 0.0 && (forall j | 0 <= j < |m| :: m[j].1 <= m[i].1)
      ensures MonthlyBars(m)[i].width == 100.0
    {
      MonthlyBarFull(m, i);
    }
  }

  /** With `mx` a largest month, each bar's width is its amount as a share
      of `mx` in percent, and 0 when `mx` is not positive. */
  lemma MonthlyBarsWidthValue(m: seq<(int, real)>, mx: real)
    requires (exists k | 0 <= k < |m| :: mx == m[k].1) && forall j | 0 <= j < |m| :: m[j].1 <= mx
    ensures forall i | 0 <= i < |m| :: MonthlyBars(m)[i].width == (if mx > 0.0 then m[i].1 / mx * 100.0 else 0.0)
  {
    var k :| 0 <= k < |m| && mx == m[k].1;
    var top := MaxBy(m, EntryAmount);
    assert EntryAmount(m[k]) <= top;
    var w :| 0 <= w < |m| && top == EntryAmount(m[w]);
    assert top == mx;
  }

  // ----- the category ranking ---------------------------------------------

  /** `x.toFixed(1)` read back as a number: rounded to one decimal, halves away from zero. */
  function Fixed1(x: real): real
  {
    if x >= 0.0 then (x * 10.0 + 0.5).Floor as real / 10.0
    else -((-x * 10.0 + 0.5).Floor as real / 10.0)
  }

  /** `percentage > 25` with `percentage` the string `toFixed(1)` made; a
      positive total over a zero sum is `Infinity`, a zero one `NaN`. */
  function IsHighSpending(total: real, totalSpent: real): bool
  {
    if totalSpent == 0.0 then total > 0.0 else Fixed1(total / totalSpent * 100.0) > 25.0
  }

  /** Because the share is rounded to one decimal first, a category counts as
      high from 25.05 percent on, not from just above 25. */
  lemma HighSpendingThreshold(total: real, totalSpent: real)
    requires totalSpent != 0.0
    ensures IsHighSpending(total, totalSpent) <==> total / totalSpent * 100.0 >= 25.05
  {
    var x := total / totalSpent * 100.0;
    if x >= 0.0 {
      var n := (x * 10.0 + 0.5).Floor;
      if x >= 25.05 {
        assert n >= 251;
      } else {
        assert n <= 250;
      }
    }
  }

  datatype RankedCategory = RankedCategory(category: string, total: real, percentage: Option<real>, isHighSpending: bool)

  function RankedEntry(e: (string, real), totalSpent: real): RankedCategory
  {
    RankedCategory(e.0, e.1, Share(e.1, totalSpent), IsHighSpending(e.1, totalSpent))
  }

  /** `Object.entries(totals).sort((a, b) => b[1] - a[1]).map(...)` */
  function CategoryRanking(totals: seq<(string, real)>): (r: seq<RankedCategory>)
    ensures |r| == |totals|
  {
    var sorted := SortDesc(totals, CategoryValue);
    var totalSpent := SumOfTotals(totals);
    seq(|sorted|, i requires 0 <= i < |sorted| => RankedEntry(sorted[i], totalSpent))
  }

  /** The entries of a ranking, as `(category, total)` pairs. */
  function RankedPairs(r: seq<RankedCategory>): seq<(string, real)>
  {
    seq(|r|, i requires 0 <= i < |r| => (r[i].category, r[i].total))
  }

  /** The ranking holds the same entries as the totals, largest total first,
      equal totals in their original order, each with its share of the sum. */
  lemma CategoryRankingSpec(totals: seq<(string, real)>)
    ensures var r := CategoryRanking(totals);
      && multiset(RankedPairs(r)) == multiset(totals)
      && (forall i, j | 0 <= i < j < |r| :: r[i].total >= r[j].total)
      && (forall v: real :: Tied(RankedPairs(r), CategoryValue, v) == Tied(totals, CategoryValue, v))
      && (forall i | 0 <= i < |r| :: r[i].percentage == Share(r[i].total, SumOfTotals(totals)))
  {
    var r := CategoryRanking(totals);
    var sorted := SortDesc(totals, CategoryValue);
    assert RankedPairs(r) == sorted;
    forall v: real ensures Tied(RankedPairs(r), CategoryValue, v) == Tied(totals, CategoryValue, v) {
      SortDescStable(totals, CategoryValue, v);
    }
    assert forall i, j | 0 <= i < j < |r| :: CategoryValue(sorted[i]) >= CategoryValue(sorted[j]);
  }

  /** A category is flagged exactly when its share of the sum, rounded to one
      decimal, is above 25 (with a zero sum, exactly when its total is positive). */
  lemma CategoryRankingFlags(totals: seq<(string, real)>)
    ensures var r := CategoryRanking(totals);
      var totalSpent := SumOfTotals(totals);
      forall i | 0 <= i < |r| ::
        r[i].isHighSpending <==>
          if totalSpent == 0.0 then r[i].total > 0.0 else r[i].total / totalSpent * 100.0 >= 25.05
  {
    var r := CategoryRanking(totals);
    var totalSpent := SumOfTotals(totals);
    if totalSpent != 0.0 {
      forall i | 0 <= i < |r|
        ensures r[i].isHighSpending <==> r[i].total / totalSpent * 100.0 >= 25.05
      {
        HighSpendingThreshold(r[i].total, totalSpent);
      }
    }
  }

  // ----- the advice under the forecast ------------------------------------

  /** The tip under the forecast; an amount is `None` where the forecast
      carries no `trend_amount` and the arithmetic gives `NaN`. */
  datatype Advice = SavingTip(save: Option<real>) | SavedReport(saved: Option<real>) | ConsistentTip

  function AdviceFor(p: BudgetPrediction): (a: Advice)
    ensures a.SavingTip? <==> p.trend == Some(Increasing)
    ensures a.SavedReport? <==> p.trend == Some(Decreasing)
    ensures a.SavingTip? && p.trendAmount.Some? ==> a.save == Some(p.trendAmount.value * 0.3)
    ensures a.SavedReport? && p.trendAmount.Some? ==> a.saved == Some(Abs(p.trendAmount.value))
  {
    match p.trend
    case Some(Increasing) => SavingTip(if p.trendAmount.Some? then Some(p.trendAmount.value * 0.3) else None)
    case Some(Decreasing) => SavedReport(if p.trendAmount.Some? then Some(Abs(p.trendAmount.value)) else None)
    case None => ConsistentTip
  }

  /** For the bills themselves the advice always has its amount: with `d` the
      latest month minus the one before, a rise suggests saving `0.3 * d`, a
      fall reports `|d|` saved, and a single month gets the fixed tip. */
  lemma AdviceFromBills(bills: seq<Bill>)
    ensures var m := MonthlyTotals(bills);
      var a := AdviceFor(PredictFromMonths(m));
      && (|m| < 2 <==> a == ConsistentTip)
      && (|m| >= 2 && m[|m| - 2].1 < m[|m| - 1].1 ==> a == SavingTip(Some((m[|m| - 1].1 - m[|m| - 2].1) * 0.3)))
      && (|m| >= 2 && m[|m| - 1].1 <= m[|m| - 2].1 ==> a == SavedReport(Some(Abs(m[|m| - 1].1 - m[|m| - 2].1))))
  {
    AdviceOfMonths(MonthlyTotals(bills));
  }

  /** The advice for a forecast made from any monthly totals `m`. */
  lemma AdviceOfMonths(m: seq<(int, real)>)
    ensures var a := AdviceFor(PredictFromMonths(m));
      && (|m| < 2 <==> a == ConsistentTip)
      && (|m| >= 2 && m[|m| - 2].1 < m[|m| - 1].1 ==> a == SavingTip(Some((m[|m| - 1].1 - m[|m| - 2].1) * 0.3)))
      && (|m| >= 2 && m[|m| - 1].1 <= m[|m| - 2].1 ==> a == SavedReport(Some(Abs(m[|m| - 1].1 - m[|m| - 2].1))))
  {
    var p := PredictFromMonths(m);
    if |m| >= 2 {
      var d := m[|m| - 1].1 - m[|m| - 2].1;
      assert p.trendAmount == Some(d);
      assert p.trend == Some(if 0.0 < d then Increasing else Decreasing);
    }
  }

  // ----- the recommended actions ------------------------------------------

  datatype Action =
    | ReduceNonEssentials(savings: real)
    | BuyInBulk(item: string, purchaseCount: int)
    | CreateShoppingList
    | SetBudgetGoal(goal: real)

  /** The position of each kind of action in the list. */
  function ActionRank(a: Action): nat
  {
    match a
    case ReduceNonEssentials(_) => 0
    case BuyInBulk(_, _) => 1
    case CreateShoppingList => 2
    case SetBudgetGoal(_) => 3
  }

  /** `(spending_trends?.average || 0) * 0.9` */
  function BudgetGoal(s: Snapshot): real
  {
    (if s.spendingTrends.Some? then s.spendingTrends.value.average else 0.0) * 0.9
  }

  predicate TrendIncreasing(s: Snapshot)
  {
    s.budgetPrediction.Some? && s.budgetPrediction.value.trend == Some(Increasing)
  }

  function RecommendedActions(s: Snapshot): seq<Action>
  {
    var savings := SavingsOpportunity(s);
    (if savings.Some? && savings.value > 100.0 then [ReduceNonEssentials(savings.value)] else [])
    + (if HasTopItems(s) then [BuyInBulk(s.topItems.value[0].name, s.topItems.value[0].purchaseCount)] else [])
    + (if TrendIncreasing(s) then [CreateShoppingList] else [])
    + [SetBudgetGoal(BudgetGoal(s))]
  }

  /** The actions come in the fixed order, each at most once; the budget
      goal is always last; each of the others appears exactly when its
      condition holds. */
  lemma RecommendedActionsSpec(s: Snapshot)
    ensures var r := RecommendedActions(s);
      && |r| >= 1
      && r[|r| - 1] == SetBudgetGoal(BudgetGoal(s))
      && (forall i, j | 0 <= i < j < |r| :: ActionRank(r[i]) < ActionRank(r[j]))
      && ((exists i | 0 <= i < |r| :: r[i].ReduceNonEssentials?) <==>
            SavingsOpportunity(s).Some? && SavingsOpportunity(s).value > 100.0)
      && ((exists i | 0 <= i < |r| :: r[i].BuyInBulk?) <==> HasTopItems(s))
      && ((exists i | 0 <= i < |r| :: r[i].CreateShoppingList?) <==> TrendIncreasing(s))
  {
    var savings := SavingsOpportunity(s);
    var a := if savings.Some? && savings.value > 100.0 then [ReduceNonEssentials(savings.value)] else [];
    var b := if HasTopItems(s) then [BuyInBulk(s.topItems.value[0].name, s.topItems.value[0].purchaseCount)] else [];
    var c := if TrendIncreasing(s) then [CreateShoppingList] else [];
    assert RecommendedActions(s) == a + b + c + [SetBudgetGoal(BudgetGoal(s))];
    ActionsInOrder(a, b, c, SetBudgetGoal(BudgetGoal(s)));
  }

  /** Up to one action of each of the first three kinds, then the goal:
      the ranks rise strictly, and a kind occurs exactly when its part is
      not empty. */
  lemma ActionsInOrder(a: seq<Action>, b: seq<Action>, c: seq<Action>, g: Action)
    requires |a| <= 1 && |b| <= 1 && |c| <= 1 && g.SetBudgetGoal?
    requires forall x | x in a :: x.ReduceNonEssentials?
    requires forall x | x in b :: x.BuyInBulk?
    requires forall x | x in c :: x.CreateShoppingList?
    ensures var r := a + b + c + [g];
      && (forall i, j | 0 <= i < j < |r| :: ActionRank(r[i]) < ActionRank(r[j]))
      && ((exists i | 0 <= i < |r| :: r[i].ReduceNonEssentials?) <==> a != [])
      && ((exists i | 0 <= i < |r| :: r[i].BuyInBulk?) <==> b != [])
      && ((exists i | 0 <= i < |r| :: r[i].CreateShoppingList?) <==> c != [])
  {
    var r := a + b + c + [g];
    forall i | 0 <= i < |r|
      ensures ActionRank(r[i]) == if i < |a| then 0 else if i < |a| + |b| then 1 else if i < |a| + |b| + |c| then 2 else 3
    {
      if i < |a| {
        assert r[i] == a[i] && a[i] in a;
      } else if i < |a| + |b| {
        assert r[i] == b[i - |a|] && b[i - |a|] in b;
      } else if i < |a| + |b| + |c| {
        assert r[i] == c[i - |a| - |b|] && c[i - |a| - |b|] in c;
      } else {
        assert r[i] == g;
      }
    }
    if a != [] {
      assert r[0] == a[0];
    }
    if b != [] {
      assert r[|a|] == b[0];
    }
    if c != [] {
      assert r[|a| + |b|] == c[0];
    }
  }
}

/** `BudgetAnalytics` of the back end: monthly spending, the category
    breakdown, spending trends, the most purchased items and the next-month
    forecast, all computed from a user's bills. The class only keeps the list
    of bills given to its constructor, so every operation here takes it as a
    parameter. */
module BudgetAnalytics {
  import opened Common
  import opened Sorting
  import opened BillData

  function Amount(x: real): real
  {
    x
  }

  function EntryAmount(e: (int, real)): real
  {
    e.1
  }

  // ----- calculate_monthly_spending ---------------------------------------

  /** One pass of the loop: `monthly_totals[month_key] += bill.get('total', 0)`. */
  function AddBillToMonth(d: ODict<int, real>, b: Bill): (d': ODict<int, real>)
    requires d.Valid()
    ensures d'.Valid()
  {
    d.Put(b.month, d.Get(b.month, 0.0) + BillTotal(b))
  }

  /** `monthly_totals` once the loop has seen `bills`. */
  function MonthAccumulator(bills: seq<Bill>): (d: ODict<int, real>)
    ensures d.Valid()
    decreases |bills|
  {
    if bills == [] then EmptyDict()
    else AddBillToMonth(MonthAccumulator(bills[..|bills| - 1]), bills[|bills| - 1])
  }

  /** Each month that occurs maps to the sum of that month's bill totals. */
  lemma {:induction false} MonthAccumulatorSums(bills: seq<Bill>)
    ensures SumsByKey(MonthAccumulator(bills).vals, bills, BillMonth, BillTotal, Amount)
    decreases |bills|
  {
    if bills != [] {
      var init := bills[..|bills| - 1];
      var b := bills[|bills| - 1];
      assert bills == init + [b];
      MonthAccumulatorSums(init);
      MonthAccumulatorStep(init, b);
    }
  }

  lemma MonthAccumulatorStep(init: seq<Bill>, b: Bill)
    requires SumsByKey(MonthAccumulator(init).vals, init, BillMonth, BillTotal, Amount)
    ensures SumsByKey(MonthAccumulator(init + [b]).vals, init + [b], BillMonth, BillTotal, Amount)
  {
    var d := MonthAccumulator(init);
    var v := d.Get(b.month, 0.0) + BillTotal(b);
    MonthAccumulatorUpdate(init, b);
    SumsByKeyStep(d.vals, init, BillMonth, BillTotal, Amount, b, v);
  }

  /** One more bill adds its total to its month's entry. */
  lemma MonthAccumulatorUpdate(init: seq<Bill>, b: Bill)
    ensures var d := MonthAccumulator(init);
      MonthAccumulator(init + [b]).vals == d.vals[b.month := d.Get(b.month, 0.0) + BillTotal(b)]
  {
    assert (init + [b])[..|init + [b]| - 1] == init;
  }

  lemma AddBillToMonthTotal(d: ODict<int, real>, b: Bill)
    requires d.Valid()
    ensures MapTotal(AddBillToMonth(d, b).keys, AddBillToMonth(d, b).vals, Amount)
         == MapTotal(d.keys, d.vals, Amount) + BillTotal(b)
  {
    var v := d.Get(b.month, 0.0) + BillTotal(b);
    var before := if b.month in d.vals then Amount(d.vals[b.month]) else 0.0;
    assert before == d.Get(b.month, 0.0);
    assert AddBillToMonth(d, b) == d.Put(b.month, v);
    MapTotalPut(d, b.month, v, Amount);
    assert Amount(v) == before + BillTotal(b);
  }

  /** The month totals together add up to all bill totals. */
  lemma {:induction false} MonthAccumulatorTotal(bills: seq<Bill>)
    ensures MapTotal(MonthAccumulator(bills).keys, MonthAccumulator(bills).vals, Amount)
         == TotalBy(bills, BillTotal)
    decreases |bills|
  {
    if bills != [] {
      var init := bills[..|bills| - 1];
      MonthAccumulatorTotal(init);
      AddBillToMonthTotal(MonthAccumulator(init), bills[|bills| - 1]);
    }
  }

  predicate MonthsAscending(s: seq<(int, real)>)
  {
    forall i, j | 0 <= i < j < |s| :: s[i].0 < s[j].0
  }

  /** Sorting by the negated month is sorting by month, ascending. */
  function MonthKey(e: (int, real)): real
  {
    -(e.0 as real)
  }

  /** `sorted(d.items())` on a dictionary keyed by month: the keys are
      distinct, so the pairs are ordered by month alone. */
  function SortByMonth(s: seq<(int, real)>): seq<(int, real)>
  {
    SortDesc(s, MonthKey)
  }

  lemma SortByMonthAscending(s: seq<(int, real)>)
    requires DistinctKeys(s)
    ensures MonthsAscending(SortByMonth(s))
    ensures multiset(SortByMonth(s)) == multiset(s)
  {
    var r := SortByMonth(s);
    DistinctKeysPermutation(s, r);
    assert forall i, j | 0 <= i < j < |r| :: MonthKey(r[i]) >= MonthKey(r[j]);
  }

  /** `dict(sorted(monthly_totals.items()))` */
  function MonthlyTotals(bills: seq<Bill>): seq<(int, real)>
  {
    SortByMonth(MonthAccumulator(bills).Items())
  }

  method CalculateMonthlySpending(bills: seq<Bill>) returns (monthly: seq<(int, real)>)
    ensures monthly == MonthlyTotals(bills)
  {
    var totals := EmptyDict<int, real>();
    for i := 0 to |bills|
      invariant totals == MonthAccumulator(bills[..i])
    {
      assert bills[..i + 1][..i] == bills[..i];
      totals := AddBillToMonth(totals, bills[i]);
    }
    assert bills[..|bills|] == bills;
    monthly := SortByMonth(totals.Items());
  }

  /** One entry per month that some bill falls in, months ascending. */
  lemma MonthlySpendingMonths(bills: seq<Bill>)
    ensures MonthsAscending(MonthlyTotals(bills))
    ensures KeySetOf(MonthlyTotals(bills)) == KeySet(bills, BillMonth)
  {
    var items := MonthAccumulator(bills).Items();
    MonthAccumulatorSums(bills);
    SortByMonthAscending(items);
    KeySetOfPermutation(MonthlyTotals(bills), items);
  }

  /** Each month's figure is the sum of that month's bill totals. */
  lemma MonthlySpendingSums(bills: seq<Bill>)
    ensures forall i | 0 <= i < |MonthlyTotals(bills)| ::
              MonthlyTotals(bills)[i].1 == KeySum(bills, BillMonth, MonthlyTotals(bills)[i].0, BillTotal)
  {
    var d := MonthAccumulator(bills);
    var items := d.Items();
    var r := MonthlyTotals(bills);
    MonthAccumulatorSums(bills);
    SortByMonthAscending(items);
    PermutedItems(d, r);
  }

  /** The monthly figures add up to the total of all bills. */
  lemma MonthlySpendingTotal(bills: seq<Bill>)
    ensures TotalBy(MonthlyTotals(bills), EntryAmount) == TotalBy(bills, BillTotal)
  {
    var d := MonthAccumulator(bills);
    MonthAccumulatorTotal(bills);
    TotalByPermutation(MonthlyTotals(bills), d.Items(), EntryAmount);
    TotalByPairs(d.keys, d.vals, Amount, EntryAmount);
  }

  // ----- get_category_breakdown -------------------------------------------

  /** `category_totals[category] += price * quantity` */
  function AddLineTotal(d: ODict<string, real>, it: BillItem): (d': ODict<string, real>)
    requires d.Valid()
    ensures d'.Valid()
  {
    d.Put(ItemCategory(it), d.Get(ItemCategory(it), 0.0) + LineAmount(it))
  }

  /** `category_counts[category] += 1` */
  function AddLineCount(d: ODict<string, int>, it: BillItem): (d': ODict<string, int>)
    requires d.Valid()
    ensures d'.Valid()
  {
    d.Put(ItemCategory(it), d.Get(ItemCategory(it), 0) + 1)
  }

  function CategoryTotals(lines: seq<BillItem>): (d: ODict<string, real>)
    ensures d.Valid()
    decreases |lines|
  {
    if lines == [] then EmptyDict()
    else AddLineTotal(CategoryTotals(lines[..|lines| - 1]), lines[|lines| - 1])
  }

  function CategoryCounts(lines: seq<BillItem>): (d: ODict<string, int>)
    ensures d.Valid()
    decreases |lines|
  {
    if lines == [] then EmptyDict()
    else AddLineCount(CategoryCounts(lines[..|lines| - 1]), lines[|lines| - 1])
  }

  lemma CategorySnoc(lines: seq<BillItem>, it: BillItem)
    ensures CategoryTotals(lines + [it]) == AddLineTotal(CategoryTotals(lines), it)
    ensures CategoryCounts(lines + [it]) == AddLineCount(CategoryCounts(lines), it)
  {
    assert (lines + [it])[..|lines|] == lines;
  }

  /** Both dictionaries have the categories of the lines as keys, in the same order. */
  lemma {:induction false} CategoryKeys(lines: seq<BillItem>)
    ensures CategoryTotals(lines).keys == CategoryCounts(lines).keys
    decreases |lines|
  {
    if lines != [] {
      CategoryKeys(lines[..|lines| - 1]);
    }
  }

  /** Each category's total is the sum of `price * quantity` over its lines. */
  lemma {:induction false} CategoryTotalsSums(lines: seq<BillItem>)
    ensures SumsByKey(CategoryTotals(lines).vals, lines, ItemCategory, LineAmount, Amount)
    decreases |lines|
  {
    if lines != [] {
      var init := lines[..|lines| - 1];
      var it := lines[|lines| - 1];
      CategoryTotalsSums(init);
      CategoryTotalsStep(init, it);
      assert init + [it] == lines;
    }
  }

  /** One more line keeps the category totals the sums of their lines. */
  lemma CategoryTotalsStep(init: seq<BillItem>, it: BillItem)
    requires SumsByKey(CategoryTotals(init).vals, init, ItemCategory, LineAmount, Amount)
    ensures SumsByKey(CategoryTotals(init + [it]).vals, init + [it], ItemCategory, LineAmount, Amount)
  {
    var t := CategoryTotals(init);
    var v := t.Get(ItemCategory(it), 0.0) + LineAmount(it);
    CategoryTotalsUpdate(init, it);
    SumsByKeyStep(t.vals, init, ItemCategory, LineAmount, Amount, it, v);
  }

  /** One more line adds its amount to its category's entry. */
  lemma CategoryTotalsUpdate(init: seq<BillItem>, it: BillItem)
    ensures var t := CategoryTotals(init);
      CategoryTotals(init + [it]).vals == t.vals[ItemCategory(it) := t.Get(ItemCategory(it), 0.0) + LineAmount(it)]
  {
    CategorySnoc(init, it);
  }

  /** Each category's count is the number of its lines. */
  lemma {:induction false} CategoryCountsCount(lines: seq<BillItem>)
    ensures CountsByKey(CategoryCounts(lines).vals, lines, ItemCategory)
    decreases |lines|
  {
    if lines != [] {
      var init := lines[..|lines| - 1];
      var it := lines[|lines| - 1];
      assert lines == init + [it];
      CategoryCountsCount(init);
      CountsByKeyStep(CategoryCounts(init).vals, init, ItemCategory, it);
    }
  }

  /** Every category with a total has a positive count. */
  lemma CategoryCountsCover(lines: seq<BillItem>)
    ensures forall c | c in CategoryTotals(lines).vals ::
              c in CategoryCounts(lines).vals && CategoryCounts(lines).vals[c] >= 1
  {
    CategoryKeys(lines);
    CategoryCountsCount(lines);
  }

  datatype CategoryBreakdown = CategoryBreakdown(
    totals: seq<(string, real)>,
    counts: seq<(string, int)>,
    averages: seq<(string, real)>)

  /** `total / count`: the amount that, taken `count` times, gives `total`. */
  function PerItem(total: real, count: int): (a: real)
    requires count >= 1
    ensures a * (count as real) == total
  {
    total / (count as real)
  }

  /** `{cat: total / category_counts[cat] for cat, total in category_totals.items()}` */
  function Averages(totals: ODict<string, real>, counts: ODict<string, int>): (r: seq<(string, real)>)
    requires totals.Valid()
    requires forall c | c in totals.vals :: c in counts.vals && counts.vals[c] >= 1
    ensures KeysOf(r) == totals.keys
    ensures forall i | 0 <= i < |r| ::
              r[i].0 in totals.vals && r[i].1 * (counts.vals[r[i].0] as real) == totals.vals[r[i].0]
  {
    seq(|totals.keys|, i requires 0 <= i < |totals.keys| =>
      (totals.keys[i], PerItem(totals.vals[totals.keys[i]], counts.vals[totals.keys[i]])))
  }

  /** The breakdown of a sequence of item lines. */
  function Breakdown(lines: seq<BillItem>): CategoryBreakdown
  {
    var totals := CategoryTotals(lines);
    var counts := CategoryCounts(lines);
    CategoryCountsCover(lines);
    CategoryBreakdown(totals.Items(), counts.Items(), Averages(totals, counts))
  }

  method GetCategoryBreakdown(bills: seq<Bill>) returns (breakdown: CategoryBreakdown)
    ensures breakdown == Breakdown(LinesOf(bills))
  {
    var totals := EmptyDict<string, real>();
    var counts := EmptyDict<string, int>();
    for i := 0 to |bills|
      invariant totals == CategoryTotals(LinesOf(bills[..i]))
      invariant counts == CategoryCounts(LinesOf(bills[..i]))
    {
      var items := bills[i].items;
      ghost var seen := LinesOf(bills[..i]);
      assert seen + items[..0] == seen;
      for j := 0 to |items|
        invariant totals == CategoryTotals(seen + items[..j])
        invariant counts == CategoryCounts(seen + items[..j])
      {
        PrefixSnoc(seen, items, j);
        CategorySnoc(seen + items[..j], items[j]);
        totals := AddLineTotal(totals, items[j]);
        counts := AddLineCount(counts, items[j]);
      }
      assert items[..|items|] == items;
      LinesOfTake(bills, i);
    }
    assert bills[..|bills|] == bills;
    CategoryCountsCover(LinesOf(bills));
    breakdown := CategoryBreakdown(totals.Items(), counts.Items(), Averages(totals, counts));
  }

  /** The three mappings share one key list, one entry per category that
      occurs. */
  lemma CategoryBreakdownKeys(lines: seq<BillItem>)
    ensures var b := Breakdown(lines);
      && KeysOf(b.totals) == KeysOf(b.counts) == KeysOf(b.averages)
      && DistinctKeys(b.totals)
      && KeySetOf(b.totals) == KeySet(lines, ItemCategory)
  {
    CategoryKeys(lines);
    CategoryCountsCover(lines);
    var totals := CategoryTotals(lines);
    var counts := CategoryCounts(lines);
    ItemsKeys(totals);
    ItemsKeys(counts);
    assert KeysOf(Averages(totals, counts)) == totals.keys;
    CategoryTotalsSums(lines);
  }

  /** totals[c] is the sum of price * quantity over c's lines. */
  lemma CategoryBreakdownTotals(lines: seq<BillItem>)
    ensures var b := Breakdown(lines);
      forall i | 0 <= i < |b.totals| :: b.totals[i].1 == KeySum(lines, ItemCategory, b.totals[i].0, LineAmount)
  {
    CategoryTotalsSums(lines);
  }

  /** counts[c] is the number of c's lines, and averages[c] is totals[c]
      divided by it. */
  lemma CategoryBreakdownCounts(lines: seq<BillItem>)
    ensures var b := Breakdown(lines);
      && |b.averages| == |b.totals| == |b.counts|
      && (forall i | 0 <= i < |b.counts| :: b.counts[i].1 == KeyCount(lines, ItemCategory, b.counts[i].0) >= 1)
      && (forall i | 0 <= i < |b.averages| :: b.averages[i].1 == b.totals[i].1 / (b.counts[i].1 as real))
  {
    CategoryKeys(lines);
    CategoryCountsCount(lines);
  }

  // ----- get_spending_trends ----------------------------------------------

  /** The part of `get_spending_trends` this model keeps (median and standard
      deviation are not modelled). */
  datatype SpendingTrends = SpendingTrends(average: real, min: real, max: real, totalBills: nat, totalSpent: real)

  /** `{}` (here `None`) without bills; otherwise mean, min, max, count and sum of the bill totals. */
  function GetSpendingTrends(bills: seq<Bill>): (r: Option<SpendingTrends>)
    ensures r.None? <==> bills == []
    ensures r.Some? ==>
      && r.value.totalBills == |bills|
      && r.value.totalSpent == TotalBy(bills, BillTotal)
      && r.value.average == r.value.totalSpent / (|bills| as real)
      && r.value.min <= r.value.average <= r.value.max
      && (forall i | 0 <= i < |bills| :: r.value.min <= BillTotal(bills[i]) <= r.value.max)
      && (exists i | 0 <= i < |bills| :: r.value.min == BillTotal(bills[i]))
      && (exists i | 0 <= i < |bills| :: r.value.max == BillTotal(bills[i]))
  {
    if bills == [] then None
    else
      MeanBounds(bills, BillTotal);
      var spent := TotalBy(bills, BillTotal);
      Some(SpendingTrends(spent / (|bills| as real), MinBy(bills, BillTotal), MaxBy(bills, BillTotal), |bills|, spent))
  }

  /** The monthly figures and the overall total describe the same spending. */
  lemma MonthlySumIsTotalSpent(bills: seq<Bill>)
    requires bills != []
    ensures TotalBy(MonthlyTotals(bills), EntryAmount) == GetSpendingTrends(bills).value.totalSpent
  {
    MonthlySpendingTotal(bills);
  }

  // ----- get_top_items ----------------------------------------------------

  /** The per-name record `{'count': ..., 'total_spent': ...}`. */
  datatype Tally = Tally(count: int, spent: real)

  /** `item_frequency[name]['count'] += quantity; ...['total_spent'] += price * quantity` */
  function AddLineTally(d: ODict<string, Tally>, it: BillItem): (d': ODict<string, Tally>)
    requires d.Valid()
    ensures d'.Valid()
  {
    var t := d.Get(it.name, Tally(0, 0.0));
    d.Put(it.name, Tally(t.count + ItemQuantity(it), t.spent + LineAmount(it)))
  }

  function ItemTallies(lines: seq<BillItem>): (d: ODict<string, Tally>)
    ensures d.Valid()
    decreases |lines|
  {
    if lines == [] then EmptyDict()
    else AddLineTally(ItemTallies(lines[..|lines| - 1]), lines[|lines| - 1])
  }

  lemma ItemTalliesSnoc(lines: seq<BillItem>, it: BillItem)
    ensures ItemTallies(lines + [it]) == AddLineTally(ItemTallies(lines), it)
  {
    assert (lines + [it])[..|lines|] == lines;
  }

  function CountOf(t: Tally): real
  {
    t.count as real
  }

  function SpentOf(t: Tally): real
  {
    t.spent
  }

  /** Each name that occurs maps to its summed quantity and its summed line amounts. */
  lemma {:induction false} ItemCountsSums(lines: seq<BillItem>)
    ensures SumsByKey(ItemTallies(lines).vals, lines, ItemName, QuantityAmount, CountOf)
    decreases |lines|
  {
    if lines != [] {
      var init := lines[..|lines| - 1];
      var it := lines[|lines| - 1];
      assert lines == init + [it];
      ItemCountsSums(init);
      var d := ItemTallies(init);
      var t := d.Get(it.name, Tally(0, 0.0));
      SumsByKeyStep(d.vals, init, ItemName, QuantityAmount, CountOf, it, Tally(t.count + ItemQuantity(it), t.spent + LineAmount(it)));
    }
  }

  lemma {:induction false} ItemSpentSums(lines: seq<BillItem>)
    ensures SumsByKey(ItemTallies(lines).vals, lines, ItemName, LineAmount, SpentOf)
    decreases |lines|
  {
    if lines != [] {
      var init := lines[..|lines| - 1];
      var it := lines[|lines| - 1];
      assert lines == init + [it];
      ItemSpentSums(init);
      var d := ItemTallies(init);
      var t := d.Get(it.name, Tally(0, 0.0));
      SumsByKeyStep(d.vals, init, ItemName, LineAmount, SpentOf, it, Tally(t.count + ItemQuantity(it), t.spent + LineAmount(it)));
    }
  }

  datatype TopItem = TopItem(name: string, purchaseCount: int, totalSpent: real)

  /** The sort key `x[1]['count']`. */
  function TallyCount(e: (string, Tally)): real
  {
    e.1.count as real
  }

  /** The end of the Python slice `s[:stop]` on a sequence of length `n`. */
  function SliceStop(n: nat, stop: int): (k: nat)
    ensures k <= n
    ensures 0 <= stop ==> k <= stop
    ensures 0 <= stop <= n ==> k == stop
    ensures n <= stop ==> k == n
    ensures stop < 0 ==> k == if n + stop > 0 then n + stop else 0
  {
    if stop >= 0 then (if stop < n then stop else n)
    else if n + stop > 0 then n + stop else 0
  }

  const DefaultTopItemsLimit: int := 10

  /** The entries of `sorted(..., key=count, reverse=True)[:limit]` as result records. */
  function TopOf(ranked: seq<(string, Tally)>, limit: int): seq<TopItem>
  {
    var kept := ranked[..SliceStop(|ranked|, limit)];
    seq(|kept|, i requires 0 <= i < |kept| => TopItem(kept[i].0, kept[i].1.count, kept[i].1.spent))
  }

  /** The ranking by purchase count, before it is cut at the limit. */
  function RankedTallies(lines: seq<BillItem>): seq<(string, Tally)>
  {
    SortDesc(ItemTallies(lines).Items(), TallyCount)
  }

  function TopItems(lines: seq<BillItem>, limit: int): seq<TopItem>
  {
    TopOf(RankedTallies(lines), limit)
  }

  method GetTopItems(bills: seq<Bill>, limit: int) returns (top: seq<TopItem>)
    ensures top == TopItems(LinesOf(bills), limit)
  {
    var frequency := EmptyDict<string, Tally>();
    for i := 0 to |bills|
      invariant frequency == ItemTallies(LinesOf(bills[..i]))
    {
      var items := bills[i].items;
      ghost var seen := LinesOf(bills[..i]);
      assert seen + items[..0] == seen;
      for j := 0 to |items|
        invariant frequency == ItemTallies(seen + items[..j])
      {
        PrefixSnoc(seen, items, j);
        ItemTalliesSnoc(seen + items[..j], items[j]);
        frequency := AddLineTally(frequency, items[j]);
      }
      assert items[..|items|] == items;
      LinesOfTake(bills, i);
    }
    assert bills[..|bills|] == bills;
    top := TopOf(SortDesc(frequency.Items(), TallyCount), limit);
  }

  /** The ranking is the tally dictionary's entries, sorted by count. */
  lemma RankedFromTallies(lines: seq<BillItem>)
    ensures var d := ItemTallies(lines);
      var ranked := RankedTallies(lines);
      && DistinctKeys(ranked)
      && SortedDesc(ranked, TallyCount)
      && KeySetOf(ranked) == d.vals.Keys
      && forall i | 0 <= i < |ranked| :: ranked[i].0 in d.vals && ranked[i].1 == d.vals[ranked[i].0]
  {
    PermutedItems(ItemTallies(lines), RankedTallies(lines));
  }

  /** Every ranked entry is one name's tally: the name occurs in the lines,
      and the tally holds its quantities and line amounts summed. */
  lemma RankedTalliesSums(lines: seq<BillItem>)
    ensures var ranked := RankedTallies(lines);
      && DistinctKeys(ranked)
      && SortedDesc(ranked, TallyCount)
      && KeySetOf(ranked) == KeySet(lines, ItemName)
      && forall i | 0 <= i < |ranked| ::
           && ranked[i].1.count as real == KeySum(lines, ItemName, ranked[i].0, QuantityAmount)
           && ranked[i].1.spent == KeySum(lines, ItemName, ranked[i].0, LineAmount)
  {
    RankedFromTallies(lines);
    ItemCountsSums(lines);
    ItemSpentSums(lines);
  }

  /** At most `limit` entries, no name twice, each name's purchase count the
      sum of its quantities and its spending the sum of its line amounts. */
  lemma TopItemsSpec(lines: seq<BillItem>, limit: int)
    ensures var r := TopItems(lines, limit);
      && (0 <= limit ==> |r| <= limit)
      && (forall i, j | 0 <= i < j < |r| :: r[i].name != r[j].name)
      && (forall i | 0 <= i < |r| ::
            && r[i].name in KeySet(lines, ItemName)
            && r[i].purchaseCount as real == KeySum(lines, ItemName, r[i].name, QuantityAmount)
            && r[i].totalSpent == KeySum(lines, ItemName, r[i].name, LineAmount))
  {
    var ranked := RankedTallies(lines);
    RankedTalliesSums(lines);
    var r := TopItems(lines, limit);
    forall i | 0 <= i < |r| ensures r[i].name in KeySet(lines, ItemName) {
      assert r[i].name == ranked[i].0 && ranked[i].0 in KeySetOf(ranked);
    }
  }

  /** The most purchased items come first. */
  lemma TopItemsOrdered(lines: seq<BillItem>, limit: int)
    ensures var r := TopItems(lines, limit);
      forall i, j | 0 <= i < j < |r| :: r[i].purchaseCount >= r[j].purchaseCount
  {
    var ranked := RankedTallies(lines);
    var r := TopItems(lines, limit);
    forall i, j | 0 <= i < j < |r| ensures r[i].purchaseCount >= r[j].purchaseCount {
      assert TallyCount(ranked[i]) >= TallyCount(ranked[j]);
    }
  }

  /** Cutting a ranking at a non-negative limit either keeps entry `p`, or
      leaves a full slice whose every entry has at least `p`'s count. */
  lemma CutAtLimit(ranked: seq<(string, Tally)>, limit: int, p: nat)
    requires SortedDesc(ranked, TallyCount) && 0 <= limit && p < |ranked|
    ensures var r := TopOf(ranked, limit);
      || (p < |r| && r[p].name == ranked[p].0)
      || (&& |r| == limit
          && forall i | 0 <= i < |r| :: TallyCount(ranked[p]) <= r[i].purchaseCount as real)
  {
    var r := TopOf(ranked, limit);
    if |r| <= p {
      forall i | 0 <= i < |r| ensures TallyCount(ranked[p]) <= r[i].purchaseCount as real {
        assert TallyCount(ranked[i]) >= TallyCount(ranked[p]);
      }
    }
  }

  /** With a non-negative limit, a name that occurs in the lines but not in
      the result was cut at the limit: the result is full and every name kept
      was bought at least as often. */
  lemma TopItemsCut(lines: seq<BillItem>, limit: int, n: string)
    requires 0 <= limit && n in KeySet(lines, ItemName)
    requires forall i | 0 <= i < |TopItems(lines, limit)| :: TopItems(lines, limit)[i].name != n
    ensures |TopItems(lines, limit)| == limit
    ensures forall i | 0 <= i < |TopItems(lines, limit)| ::
              KeySum(lines, ItemName, n, QuantityAmount) <= TopItems(lines, limit)[i].purchaseCount as real
  {
    var ranked := RankedTallies(lines);
    RankedFromTallies(lines);
    ItemCountsSums(lines);
    assert n in KeySetOf(ranked);
    var p :| 0 <= p < |ranked| && ranked[p].0 == n;
    assert TallyCount(ranked[p]) == KeySum(lines, ItemName, n, QuantityAmount) by {
      assert CountOf(ItemTallies(lines).vals[n]) == KeySum(lines, ItemName, n, QuantityAmount);
    }
    assert TopItems(lines, limit) == TopOf(ranked, limit);
    CutAtLimit(ranked, limit, p);
  }

  // ----- predict_next_month_budget ----------------------------------------

  datatype Confidence = Low | Medium | High

  /** The back end labels a trend only 'increasing' or 'decreasing'. */
  datatype Direction = Increasing | Decreasing

  /** `{'prediction', 'confidence'}`, plus `'trend'` and `'trend_amount'`
      when there are at least two months. */
  datatype BudgetPrediction = BudgetPrediction(
    prediction: real,
    confidence: Confidence,
    trend: Option<Direction>,
    trendAmount: Option<real>)

  function Abs(x: real): real
  {
    if x < 0.0 then -x else x
  }

  /** The forecast from the monthly totals, in month order. */
  function PredictFromMonths(monthly: seq<(int, real)>): (p: BudgetPrediction)
    ensures |monthly| < 2 ==> p == BudgetPrediction(0.0, Low, None, None)
    ensures 2 <= |monthly| ==>
      var last, previous := monthly[|monthly| - 1].1, monthly[|monthly| - 2].1;
      var mean := TotalBy(monthly, EntryAmount) / (|monthly| as real);
      && p.trendAmount == Some(last - previous)
      && p.prediction - last == last - previous
      && (p.trend == Some(Increasing) <==> previous < last)
      && (p.trend == Some(Decreasing) <==> last <= previous)
      && (p.confidence == High <==> Abs(last - previous) < mean * 0.2)
      && (p.confidence == Medium <==> mean * 0.2 <= Abs(last - previous))
  {
    if |monthly| < 2 then BudgetPrediction(0.0, Low, None, None)
    else
      var values := monthly;
      var avg := TotalBy(values, EntryAmount) / (|values| as real);
      var trend := values[|values| - 1].1 - values[|values| - 2].1;
      BudgetPrediction(
        values[|values| - 1].1 + trend,
        if Abs(trend) < avg * 0.2 then High else Medium,
        Some(if trend > 0.0 then Increasing else Decreasing),
        Some(trend))
  }

  method PredictNextMonthBudget(bills: seq<Bill>) returns (p: BudgetPrediction)
    ensures p == PredictFromMonths(MonthlyTotals(bills))
  {
    var monthly := CalculateMonthlySpending(bills);
    p := PredictFromMonths(monthly);
  }

  /** A forecast with a trend is made exactly when the bills fall in at least
      two different months; it then extrapolates the two latest months. */
  lemma ForecastNeedsTwoMonths(bills: seq<Bill>)
    ensures var p := PredictFromMonths(MonthlyTotals(bills));
      p.trend.Some? <==> exists b1, b2 | b1 in bills && b2 in bills :: b1.month != b2.month
  {
    var r := MonthlyTotals(bills);
    MonthlySpendingMonths(bills);
    if 2 <= |r| {
      assert r[0].0 in KeySet(bills, BillMonth) && r[1].0 in KeySet(bills, BillMonth);
      var b1 := KeySetWitness(bills, BillMonth, r[0].0);
      var b2 := KeySetWitness(bills, BillMonth, r[1].0);
      assert b1.month != b2.month;
    } else {
      forall b1, b2 | b1 in bills && b2 in bills ensures b1.month == b2.month {
        KeySetMember(bills, BillMonth, b1);
        KeySetMember(bills, BillMonth, b2);
        assert b1.month in KeySetOf(r) && b2.month in KeySetOf(r);
      }
    }
  }

  lemma {:induction false} KeySetWitness(bills: seq<Bill>, key: Bill -> int, k: int) returns (b: Bill)
    requires k in KeySet(bills, key)
    ensures b in bills && key(b) == k
    decreases |bills|
  {
    var init := bills[..|bills| - 1];
    if key(bills[|bills| - 1]) == k {
      b := bills[|bills| - 1];
    } else {
      b := KeySetWitness(init, key, k);
      assert b in init;
    }
  }

  lemma {:induction false} KeySetMember(bills: seq<Bill>, key: Bill -> int, b: Bill)
    requires b in bills
    ensures key(b) in KeySet(bills, key)
    decreases |bills|
  {
    var init := bills[..|bills| - 1];
    if b != bills[|bills| - 1] {
      assert bills == init + [bills[|bills| - 1]];
      assert b in init;
      KeySetMember(init, key, b);
    }
  }
}

/** `ShoppingListGenerator` of the back end: a suggested shopping list from
    recent purchases, low-stock detection and grouping by category. The class
    only keeps the bills given to its constructor, so they are a parameter
    here, and so is the cutoff `now - days_back` that it takes from the clock. */
module ShoppingLists {
  import opened Common
  import opened Sorting
  import opened BillData

  // ----- generate_smart_list ----------------------------------------------

  /** The bills with `bill_date >= cutoff_date`, in order. */
  function RecentBills(bills: seq<Bill>, cutoff: int): (r: seq<Bill>)
    ensures forall b | b in r :: b in bills && b.createdAt >= cutoff
    ensures forall b | b in bills && b.createdAt >= cutoff :: b in r
    decreases |bills|
  {
    if bills == [] then []
    else
      var init := RecentBills(bills[..|bills| - 1], cutoff);
      var last := bills[|bills| - 1];
      assert forall b | b in bills :: b == last || b in bills[..|bills| - 1];
      if last.createdAt >= cutoff then init + [last] else init
  }

  /** `item_details[name]`: the details of the first line with that name. */
  datatype Details = Details(category: string, avgPrice: real, avgQuantity: int)

  function DetailsOf(it: BillItem): Details
  {
    Details(ItemCategory(it), ItemPrice(it), ItemQuantity(it))
  }

  /** `item_frequency[name] += 1` */
  function CountLine(d: ODict<string, int>, it: BillItem): (d': ODict<string, int>)
    requires d.Valid()
    ensures d'.Valid()
  {
    d.Put(it.name, d.Get(it.name, 0) + 1)
  }

  /** `if name not in item_details: item_details[name] = {...}` */
  function NoteDetails(d: ODict<string, Details>, it: BillItem): (d': ODict<string, Details>)
    requires d.Valid()
    ensures d'.Valid()
  {
    if it.name in d.vals then d else d.Put(it.name, DetailsOf(it))
  }

  function Frequencies(lines: seq<BillItem>): (d: ODict<string, int>)
    ensures d.Valid()
    decreases |lines|
  {
    if lines == [] then EmptyDict()
    else CountLine(Frequencies(lines[..|lines| - 1]), lines[|lines| - 1])
  }

  function FirstDetails(lines: seq<BillItem>): (d: ODict<string, Details>)
    ensures d.Valid()
    decreases |lines|
  {
    if lines == [] then EmptyDict()
    else NoteDetails(FirstDetails(lines[..|lines| - 1]), lines[|lines| - 1])
  }

  lemma FrequenciesSnoc(lines: seq<BillItem>, it: BillItem)
    ensures Frequencies(lines + [it]) == CountLine(Frequencies(lines), it)
    ensures FirstDetails(lines + [it]) == NoteDetails(FirstDetails(lines), it)
  {
    assert (lines + [it])[..|lines|] == lines;
  }

  /** The counter counts each name's lines. */
  lemma {:induction false} FrequencyCounts(lines: seq<BillItem>)
    ensures CountsByKey(Frequencies(lines).vals, lines, ItemName)
    decreases |lines|
  {
    if lines != [] {
      var init := lines[..|lines| - 1];
      assert lines == init + [lines[|lines| - 1]];
      FrequencyCounts(init);
      CountsByKeyStep(Frequencies(init).vals, init, ItemName, lines[|lines| - 1]);
    }
  }

  /** The details dictionary has the counter's keys, in the same order. */
  lemma {:induction false} DetailsKeys(lines: seq<BillItem>)
    ensures FirstDetails(lines).keys == Frequencies(lines).keys
    decreases |lines|
  {
    if lines != [] {
      DetailsKeys(lines[..|lines| - 1]);
    }
  }

  /** `dn` are the details of the first line of `lines` named `n`. */
  ghost predicate FirstLine(lines: seq<BillItem>, n: string, dn: Details)
  {
    exists i | 0 <= i < |lines| ::
      && lines[i].name == n
      && dn == DetailsOf(lines[i])
      && forall j | 0 <= j < i :: lines[j].name != n
  }

  /** `d` holds, for each name in `lines`, the details of its first line. */
  ghost predicate FirstLines(d: map<string, Details>, lines: seq<BillItem>)
  {
    && d.Keys == KeySet(lines, ItemName)
    && forall n | n in d :: FirstLine(lines, n, d[n])
  }

  lemma FirstLineKeep(lines: seq<BillItem>, it: BillItem, n: string, dn: Details)
    requires FirstLine(lines, n, dn)
    ensures FirstLine(lines + [it], n, dn)
  {
    var i :| 0 <= i < |lines| && lines[i].name == n && dn == DetailsOf(lines[i])
             && forall j | 0 <= j < i :: lines[j].name != n;
    var s := lines + [it];
    assert forall j | 0 <= j <= i :: s[j] == lines[j];
  }

  lemma FirstLineNew(lines: seq<BillItem>, it: BillItem)
    requires it.name !in KeySet(lines, ItemName)
    ensures FirstLine(lines + [it], it.name, DetailsOf(it))
  {
    var s := lines + [it];
    assert s[|lines|] == it;
    forall j | 0 <= j < |lines| ensures s[j].name != it.name {
      KeySetHas(lines, ItemName, j);
      assert s[j] == lines[j];
    }
  }

  lemma NoteDetailsStep(d: ODict<string, Details>, lines: seq<BillItem>, it: BillItem)
    requires d.Valid() && FirstLines(d.vals, lines)
    ensures FirstLines(NoteDetails(d, it).vals, lines + [it])
  {
    var d' := NoteDetails(d, it).vals;
    KeySetSnoc(lines, ItemName, it);
    forall n | n in d' ensures FirstLine(lines + [it], n, d'[n]) {
      if n in d.vals {
        FirstLineKeep(lines, it, n, d.vals[n]);
      } else {
        FirstLineNew(lines, it);
      }
    }
  }

  /** The details of each name are those of its first line. */
  lemma {:induction false} DetailsFirst(lines: seq<BillItem>)
    ensures FirstLines(FirstDetails(lines).vals, lines)
    decreases |lines|
  {
    if lines != [] {
      var init := lines[..|lines| - 1];
      assert lines == init + [lines[|lines| - 1]];
      DetailsFirst(init);
      NoteDetailsStep(FirstDetails(init), init, lines[|lines| - 1]);
    }
  }

  lemma {:induction false} KeySetHas<T, K>(s: seq<T>, key: T -> K, j: nat)
    requires j < |s|
    ensures key(s[j]) in KeySet(s, key)
    decreases |s|
  {
    if j < |s| - 1 {
      KeySetHas(s[..|s| - 1], key, j);
    }
  }

  datatype Priority = High | Medium | Low

  /** `'high' if frequency > 3 else 'medium' if frequency > 1 else 'low'` */
  function PriorityOf(frequency: int): (p: Priority)
    ensures p == High <==> frequency > 3
    ensures p == Medium <==> 1 < frequency <= 3
    ensures p == Low <==> frequency <= 1
  {
    if frequency > 3 then High else if frequency > 1 then Medium else Low
  }

  datatype Suggestion = Suggestion(
    name: string,
    category: string,
    suggestedQuantity: int,
    estimatedPrice: real,
    purchaseFrequency: int,
    priority: Priority)

  function FrequencyKey(e: (string, int)): real
  {
    e.1 as real
  }

  /** `item_frequency.most_common()`: by frequency, ties in first-seen order. */
  function MostCommon(lines: seq<BillItem>): seq<(string, int)>
  {
    SortDesc(Frequencies(lines).Items(), FrequencyKey)
  }

  function Suggest(e: (string, int), d: Details): Suggestion
  {
    Suggestion(e.0, d.category, d.avgQuantity, d.avgPrice, e.1, PriorityOf(e.1))
  }

  predicate NamesKnown(ranked: seq<(string, int)>, details: map<string, Details>)
  {
    forall k | 0 <= k < |ranked| :: ranked[k].0 in details
  }

  lemma RankedNamesKnown(lines: seq<BillItem>)
    ensures NamesKnown(MostCommon(lines), FirstDetails(lines).vals)
  {
    var items := Frequencies(lines).Items();
    var ranked := MostCommon(lines);
    FrequencyCounts(lines);
    DetailsFirst(lines);
    KeySetOfPermutation(items, ranked);
    forall k | 0 <= k < |ranked| ensures ranked[k].0 in FirstDetails(lines).vals {
      assert ranked[k].0 in KeySetOf(ranked);
    }
  }

  /** The loop over `most_common()` that builds one suggestion per name. */
  function Suggestions(ranked: seq<(string, int)>, details: map<string, Details>): seq<Suggestion>
    requires NamesKnown(ranked, details)
  {
    seq(|ranked|, k requires 0 <= k < |ranked| => Suggest(ranked[k], details[ranked[k].0]))
  }

  /** The suggestions built from a set of item lines. */
  function SmartListOf(lines: seq<BillItem>): (r: seq<Suggestion>)
  {
    RankedNamesKnown(lines);
    Suggestions(MostCommon(lines), FirstDetails(lines).vals)
  }

  function SmartList(bills: seq<Bill>, cutoff: int): seq<Suggestion>
  {
    SmartListOf(LinesOf(RecentBills(bills, cutoff)))
  }

  method GenerateSmartList(bills: seq<Bill>, cutoff: int) returns (suggested: seq<Suggestion>)
    ensures suggested == SmartList(bills, cutoff)
  {
    var frequency := EmptyDict<string, int>();
    var details := EmptyDict<string, Details>();
    ghost var recent: seq<Bill> := [];
    for i := 0 to |bills|
      invariant recent == RecentBills(bills[..i], cutoff)
      invariant frequency == Frequencies(LinesOf(recent))
      invariant details == FirstDetails(LinesOf(recent))
    {
      RecentBillsSnoc(bills, i, cutoff);
      if bills[i].createdAt >= cutoff {
        frequency, details := TallyLines(frequency, details, LinesOf(recent), bills[i].items);
        LinesOfSnoc(recent, bills[i]);
        recent := recent + [bills[i]];
      }
    }
    assert bills[..|bills|] == bills;
    RankedNamesKnown(LinesOf(recent));
    var ranked := SortDesc(frequency.Items(), FrequencyKey);
    suggested := BuildSuggestions(ranked, details.vals);
  }

  /** The bills from the first `i + 1` that are recent: those from the first
      `i`, and bill `i` when it is recent. */
  lemma RecentBillsSnoc(bills: seq<Bill>, i: nat, cutoff: int)
    requires i < |bills|
    ensures RecentBills(bills[..i + 1], cutoff)
         == RecentBills(bills[..i], cutoff) + (if bills[i].createdAt >= cutoff then [bills[i]] else [])
  {
    assert bills[..i + 1][..i] == bills[..i];
  }

  /** One bill is kept exactly when it is dated at or after the cutoff. */
  lemma RecentBillsSingle(b: Bill, cutoff: int)
    ensures RecentBills([b], cutoff) == (if b.createdAt >= cutoff then [b] else [])
  {
    assert [b][..0] == [];
  }

  /** The filter works bill by bill: the recent bills of two runs of bills
      are those of the first run followed by those of the second. */
  lemma {:induction false} RecentBillsAppend(a: seq<Bill>, b: seq<Bill>, cutoff: int)
    ensures RecentBills(a + b, cutoff) == RecentBills(a, cutoff) + RecentBills(b, cutoff)
    decreases |b|
  {
    if b == [] {
      assert a + b == a;
    } else {
      var init := b[..|b| - 1];
      RecentBillsAppend(a, init, cutoff);
      assert (a + b)[..|a + b| - 1] == a + init;
      assert (a + b)[|a + b| - 1] == b[|b| - 1];
    }
  }

  /** The inner loop over one bill's items: counts each line and notes the
      details of each name seen for the first time. */
  method TallyLines(frequency: ODict<string, int>, details: ODict<string, Details>, ghost seen: seq<BillItem>, items: seq<BillItem>)
    returns (frequency': ODict<string, int>, details': ODict<string, Details>)
    requires frequency == Frequencies(seen) && details == FirstDetails(seen)
    ensures frequency' == Frequencies(seen + items) && details' == FirstDetails(seen + items)
  {
    frequency', details' := frequency, details;
    assert seen + items[..0] == seen;
    for j := 0 to |items|
      invariant frequency' == Frequencies(seen + items[..j])
      invariant details' == FirstDetails(seen + items[..j])
    {
      PrefixSnoc(seen, items, j);
      FrequenciesSnoc(seen + items[..j], items[j]);
      frequency' := CountLine(frequency', items[j]);
      details' := NoteDetails(details', items[j]);
    }
    assert items[..|items|] == items;
  }

  /** `for item_name, frequency in ...: suggested_items.append({...})` */
  method BuildSuggestions(ranked: seq<(string, int)>, details: map<string, Details>) returns (suggested: seq<Suggestion>)
    requires NamesKnown(ranked, details)
    ensures suggested == Suggestions(ranked, details)
  {
    suggested := [];
    for k := 0 to |ranked|
      invariant suggested == Suggestions(ranked, details)[..k]
    {
      suggested := suggested + [Suggest(ranked[k], details[ranked[k].0])];
    }
  }

  /** Every ranked name comes from the counter, with its count. */
  lemma MostCommonSpec(lines: seq<BillItem>)
    ensures var ranked := MostCommon(lines);
      && DistinctKeys(ranked)
      && KeySetOf(ranked) == KeySet(lines, ItemName)
      && forall k | 0 <= k < |ranked| :: ranked[k].1 == KeyCount(lines, ItemName, ranked[k].0) >= 1
  {
    var f := Frequencies(lines);
    var ranked := MostCommon(lines);
    FrequencyCounts(lines);
    PermutedItems(f, ranked);
  }

  /** The suggestions follow the ranked names one for one. */
  lemma SmartListFollowsRanking(lines: seq<BillItem>)
    ensures var r := SmartListOf(lines);
      var ranked := MostCommon(lines);
      && |r| == |ranked|
      && forall i | 0 <= i < |r| :: r[i].name == ranked[i].0 && r[i].purchaseFrequency == ranked[i].1
  {
    RankedNamesKnown(lines);
  }

  /** One suggestion per distinct name bought, most frequent first. */
  lemma SmartListNames(lines: seq<BillItem>)
    ensures var r := SmartListOf(lines);
      && (forall i, j | 0 <= i < j < |r| :: r[i].name != r[j].name)
      && (forall i, j | 0 <= i < j < |r| :: r[i].purchaseFrequency >= r[j].purchaseFrequency)
      && (forall n :: n in KeySet(lines, ItemName) <==> exists i | 0 <= i < |r| :: r[i].name == n)
  {
    var ranked := MostCommon(lines);
    var r := SmartListOf(lines);
    MostCommonSpec(lines);
    SmartListFollowsRanking(lines);
    forall i, j | 0 <= i < j < |r| ensures r[i].purchaseFrequency >= r[j].purchaseFrequency {
      assert FrequencyKey(ranked[i]) >= FrequencyKey(ranked[j]);
    }
    forall n ensures n in KeySet(lines, ItemName) <==> exists i | 0 <= i < |r| :: r[i].name == n {
      if n in KeySet(lines, ItemName) {
        assert n in KeySetOf(ranked);
        var i :| 0 <= i < |ranked| && ranked[i].0 == n;
        assert r[i].name == n;
      }
      if exists i | 0 <= i < |r| :: r[i].name == n {
        var i :| 0 <= i < |r| && r[i].name == n;
        assert ranked[i].0 in KeySetOf(ranked);
      }
    }
  }

  /** A suggestion's frequency is the number of lines with its name, its
      priority follows the frequency, and its category, price and quantity
      are those of the name's first line. */
  lemma SmartListEntries(lines: seq<BillItem>, i: nat)
    requires i < |SmartListOf(lines)|
    ensures var e := SmartListOf(lines)[i];
      && e.purchaseFrequency == KeyCount(lines, ItemName, e.name) >= 1
      && e.priority == PriorityOf(e.purchaseFrequency)
      && exists p | 0 <= p < |lines| ::
           && lines[p].name == e.name
           && (forall q | 0 <= q < p :: lines[q].name != e.name)
           && e.category == ItemCategory(lines[p])
           && e.estimatedPrice == ItemPrice(lines[p])
           && e.suggestedQuantity == ItemQuantity(lines[p])
  {
    MostCommonSpec(lines);
    DetailsFirst(lines);
    RankedNamesKnown(lines);
    var e := SmartListOf(lines)[i];
    assert e.name in FirstDetails(lines).vals;
  }

  // ----- detect_running_low_items -----------------------------------------

  /** The names with a quantity of at most 2, in inventory order. */
  function LowStock(inventory: seq<(string, int)>): seq<string>
    decreases |inventory|
  {
    if inventory == [] then []
    else
      var last := inventory[|inventory| - 1];
      LowStock(inventory[..|inventory| - 1]) + (if last.1 <= 2 then [last.0] else [])
  }

  method DetectRunningLowItems(inventory: seq<(string, int)>) returns (low: seq<string>)
    ensures low == LowStock(inventory)
  {
    low := [];
    for i := 0 to |inventory|
      invariant low == LowStock(inventory[..i])
    {
      assert inventory[..i + 1][..i] == inventory[..i];
      if inventory[i].1 <= 2 {
        low := low + [inventory[i].0];
      }
    }
    assert inventory[..|inventory|] == inventory;
  }

  /** A name is reported iff some entry gives it a quantity of at most 2. */
  lemma {:induction false} LowStockMembers(inventory: seq<(string, int)>)
    ensures forall n :: n in LowStock(inventory) <==> exists i | 0 <= i < |inventory| :: inventory[i] == (n, inventory[i].1) && inventory[i].1 <= 2
    decreases |inventory|
  {
    if inventory != [] {
      var init := inventory[..|inventory| - 1];
      LowStockMembers(init);
      assert forall i | 0 <= i < |init| :: inventory[i] == init[i];
      assert forall i | 0 <= i < |inventory| :: i == |inventory| - 1 || inventory[i] == init[i];
    }
  }

  /** The report keeps inventory order: the report of a concatenation is the
      concatenation of the reports. */
  lemma {:induction false} LowStockAppend(a: seq<(string, int)>, b: seq<(string, int)>)
    ensures LowStock(a + b) == LowStock(a) + LowStock(b)
    decreases |b|
  {
    if b == [] {
      assert a + b == a;
    } else {
      var b' := b[..|b| - 1];
      assert (a + b)[..|a + b| - 1] == a + b';
      LowStockAppend(a, b');
    }
  }

  // ----- group_by_category ------------------------------------------------

  /** `grouped[category].append(item)` */
  function AddToGroup(d: ODict<string, seq<BillItem>>, it: BillItem): (d': ODict<string, seq<BillItem>>)
    requires d.Valid()
    ensures d'.Valid()
  {
    d.Put(ItemCategory(it), d.Get(ItemCategory(it), []) + [it])
  }

  function Groups(items: seq<BillItem>): (d: ODict<string, seq<BillItem>>)
    ensures d.Valid()
    decreases |items|
  {
    if items == [] then EmptyDict()
    else AddToGroup(Groups(items[..|items| - 1]), items[|items| - 1])
  }

  method GroupByCategory(items: seq<BillItem>) returns (grouped: seq<(string, seq<BillItem>)>)
    ensures grouped == Groups(items).Items()
  {
    var d := EmptyDict<string, seq<BillItem>>();
    for i := 0 to |items|
      invariant d == Groups(items[..i])
    {
      assert items[..i + 1][..i] == items[..i];
      d := AddToGroup(d, items[i]);
    }
    assert items[..|items|] == items;
    grouped := d.Items();
  }

  function GroupSize(g: seq<BillItem>): real
  {
    |g| as real
  }

  /** `d` maps each category occurring in `items` to that category's items, in input order. */
  ghost predicate GroupsOf(d: map<string, seq<BillItem>>, items: seq<BillItem>)
  {
    && d.Keys == KeySet(items, ItemCategory)
    && forall c | c in d :: d[c] == KeyFilter(items, ItemCategory, c)
  }

  lemma AddToGroupStep(d: ODict<string, seq<BillItem>>, items: seq<BillItem>, it: BillItem)
    requires d.Valid() && GroupsOf(d.vals, items)
    ensures GroupsOf(AddToGroup(d, it).vals, items + [it])
  {
    KeySetSnoc(items, ItemCategory, it);
    var d' := AddToGroup(d, it);
    forall c | c in d'.vals ensures d'.vals[c] == KeyFilter(items + [it], ItemCategory, c) {
      KeyFilterSnoc(items, ItemCategory, c, it);
      if c == ItemCategory(it) && c !in d.vals {
        KeyFilterAbsent(items, ItemCategory, c);
      }
    }
  }

  /** Each category that occurs (missing categories read as 'General') has
      a group, and the group holds exactly that category's items in input order. */
  lemma {:induction false} GroupsSpec(items: seq<BillItem>)
    ensures GroupsOf(Groups(items).vals, items)
    decreases |items|
  {
    if items != [] {
      var init := items[..|items| - 1];
      assert items == init + [items[|items| - 1]];
      GroupsSpec(init);
      AddToGroupStep(Groups(init), init, items[|items| - 1]);
    }
  }

  /** The groups together hold every item once. */
  lemma {:induction false} GroupsTotal(items: seq<BillItem>)
    ensures MapTotal(Groups(items).keys, Groups(items).vals, GroupSize) == |items| as real
    decreases |items|
  {
    if items != [] {
      var init := items[..|items| - 1];
      var it := items[|items| - 1];
      GroupsTotal(init);
      var d := Groups(init);
      MapTotalPut(d, ItemCategory(it), d.Get(ItemCategory(it), []) + [it], GroupSize);
    }
  }

  lemma {:induction false} KeyFilterAbsent<T, K>(s: seq<T>, key: T -> K, k: K)
    requires k !in KeySet(s, key)
    ensures KeyFilter(s, key, k) == []
    decreases |s|
  {
    if s != [] {
      KeyFilterAbsent(s[..|s| - 1], key, k);
    }
  }
}

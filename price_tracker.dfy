/** `PriceTracker` of the back end: a per-item history of observed prices,
    the trend of one item's price and the best deals in a list of items. */
module PriceTracking {
  import opened Common
  import opened Sorting
  import opened BillData

  /** One observation `{'price': ..., 'date': ...}`; the date is an opaque timestamp. */
  datatype PriceRecord = PriceRecord(price: real, date: int)

  function RecordPrice(r: PriceRecord): real
  {
    r.price
  }

  /** `sum(prices) / len(prices)` */
  function Average(recs: seq<PriceRecord>): real
    requires recs != []
  {
    TotalBy(recs, RecordPrice) / (|recs| as real)
  }

  /** Every item in the history has at least one observation. */
  ghost predicate HistoriesNonEmpty(h: map<string, seq<PriceRecord>>)
  {
    forall n | n in h :: h[n] != []
  }

  /** `price_history[name].append(record)` on a `defaultdict(list)`. */
  function Appended(h: map<string, seq<PriceRecord>>, name: string, rec: PriceRecord): map<string, seq<PriceRecord>>
  {
    h[name := (if name in h then h[name] else []) + [rec]]
  }

  /** Recording a price adds exactly one observation, at the end of that
      item's history, and changes no other item's history. */
  lemma AppendedSpec(h: map<string, seq<PriceRecord>>, name: string, rec: PriceRecord)
    ensures var h' := Appended(h, name, rec);
      && h'.Keys == h.Keys + {name}
      && |h'[name]| == (if name in h then |h[name]| else 0) + 1
      && h'[name][|h'[name]| - 1] == rec
      && h'[name][..|h'[name]| - 1] == (if name in h then h[name] else [])
      && (forall n | n in h && n != name :: h'[n] == h[n])
      && (HistoriesNonEmpty(h) ==> HistoriesNonEmpty(h'))
  {
    var prior := if name in h then h[name] else [];
    assert (prior + [rec])[..|prior|] == prior;
  }

  datatype Trend = Up | Down | Stable

  /** The dictionary `get_price_trend` returns for a known item. */
  datatype PriceTrendReport =
    | InsufficientData
    | Report(itemName: string, latestPrice: real, previousPrice: real, minPrice: real, maxPrice: real,
             avgPrice: real, priceChange: real, changePercent: real, trend: Trend, savingsPotential: real)

  /** The trend of an item from its (non-missing) price history. */
  function TrendOf(name: string, recs: seq<PriceRecord>): (r: PriceTrendReport)
    ensures r.InsufficientData? <==> |recs| < 2
    ensures r.Report? ==>
      && r.itemName == name
      && r.latestPrice == recs[|recs| - 1].price
      && r.previousPrice == recs[|recs| - 2].price
      && r.avgPrice == Average(recs)
      && (forall i | 0 <= i < |recs| :: r.minPrice <= recs[i].price <= r.maxPrice)
      && (exists i | 0 <= i < |recs| :: recs[i].price == r.minPrice)
      && (exists i | 0 <= i < |recs| :: recs[i].price == r.maxPrice)
      && r.minPrice <= r.avgPrice <= r.maxPrice
      && r.minPrice <= r.latestPrice <= r.maxPrice
      && r.priceChange == r.latestPrice - r.previousPrice
      && r.changePercent == (if r.previousPrice > 0.0 then r.priceChange / r.previousPrice * 100.0 else 0.0)
      && (r.trend == Up <==> r.priceChange > 0.0)
      && (r.trend == Down <==> r.priceChange < 0.0)
      && (r.trend == Stable <==> r.priceChange == 0.0)
      && r.savingsPotential == r.latestPrice - r.minPrice >= 0.0
  {
    if |recs| < 2 then InsufficientData
    else
      var latest := recs[|recs| - 1].price;
      var previous := recs[|recs| - 2].price;
      var lo := MinBy(recs, RecordPrice);
      var hi := MaxBy(recs, RecordPrice);
      MeanBounds(recs, RecordPrice);
      var change := latest - previous;
      var percent := if previous > 0.0 then change / previous * 100.0 else 0.0;
      Report(name, latest, previous, lo, hi, Average(recs), change, percent,
             if change > 0.0 then Up else if change < 0.0 then Down else Stable,
             latest - lo)
  }

  /** One entry of `find_best_deals`. */
  datatype Deal = Deal(item: string, currentPrice: real, avgPrice: real, savings: real, savingsPercent: real)

  /** What the loop body of `find_best_deals` does with one item: nothing, a
      deal, or the `ZeroDivisionError` of `savings / avg_price` when the
      average is 0 and the price below it. */
  datatype DealCheck = NoDeal | Found(deal: Deal) | ZeroAverage

  function CheckDeal(h: map<string, seq<PriceRecord>>, it: BillItem): (c: DealCheck)
    requires HistoriesNonEmpty(h)
    ensures c.Found? <==> it.name in h && ItemPrice(it) < Average(h[it.name]) != 0.0
    ensures c.ZeroAverage? <==> it.name in h && ItemPrice(it) < Average(h[it.name]) == 0.0
    ensures c.Found? ==>
      && c.deal.item == it.name
      && c.deal.currentPrice == ItemPrice(it)
      && c.deal.avgPrice == Average(h[it.name])
      && c.deal.savings == c.deal.avgPrice - c.deal.currentPrice > 0.0
      && c.deal.savingsPercent == c.deal.savings / c.deal.avgPrice * 100.0
  {
    if it.name !in h then NoDeal
    else
      var avg := Average(h[it.name]);
      var price := ItemPrice(it);
      if !(price < avg) then NoDeal
      else if avg == 0.0 then ZeroAverage
      else
        var savings := avg - price;
        Found(Deal(it.name, price, avg, savings, savings / avg * 100.0))
  }

  /** The `deals` list after the loop has seen `items`, or `None` once it has raised. */
  function CollectDeals(h: map<string, seq<PriceRecord>>, items: seq<BillItem>): Option<seq<Deal>>
    requires HistoriesNonEmpty(h)
    decreases |items|
  {
    if items == [] then Some([])
    else
      match CollectDeals(h, items[..|items| - 1])
      case None => None
      case Some(ds) =>
        match CheckDeal(h, items[|items| - 1])
        case NoDeal => Some(ds)
        case Found(d) => Some(ds + [d])
        case ZeroAverage => None
  }

  /** `x['savings_percent']`: the sort compares the field as stored, rounded
      to the cent. */
  function RoundedPercent(d: Deal): real
  {
    Round2(d.savingsPercent)
  }

  /** `sorted(deals, key=savings_percent, reverse=True)`, or `None` for the exception. */
  function BestDeals(h: map<string, seq<PriceRecord>>, items: seq<BillItem>): Option<seq<Deal>>
    requires HistoriesNonEmpty(h)
  {
    match CollectDeals(h, items)
    case None => None
    case Some(ds) => Some(SortDesc(ds, RoundedPercent))
  }

  /** The collected deals are exactly the `Found` checks, in item order, and
      there are no more of them than items. */
  lemma {:induction false} CollectDealsSpec(h: map<string, seq<PriceRecord>>, items: seq<BillItem>)
    requires HistoriesNonEmpty(h)
    ensures CollectDeals(h, items).None? <==> exists i | 0 <= i < |items| :: CheckDeal(h, items[i]).ZeroAverage?
    ensures CollectDeals(h, items).Some? ==>
      var ds := CollectDeals(h, items).value;
      && |ds| <= |items|
      && (forall d | d in ds :: exists i | 0 <= i < |items| :: CheckDeal(h, items[i]) == Found(d))
      && (forall i | 0 <= i < |items| && CheckDeal(h, items[i]).Found? :: CheckDeal(h, items[i]).deal in ds)
    decreases |items|
  {
    if items != [] {
      var init := items[..|items| - 1];
      var last := items[|items| - 1];
      CollectDealsSpec(h, init);
      assert forall i | 0 <= i < |init| :: init[i] == items[i];
      if CollectDeals(h, init).Some? && !CheckDeal(h, last).ZeroAverage? {
        assert forall i | 0 <= i < |items| :: i == |items| - 1 || items[i] in init;
      }
    }
  }

  /** `idx` lists, in increasing order, the positions of the items whose check
      found a deal, and `ds[k]` is the deal found at position `idx[k]`: each
      such item gives exactly one deal, and no other item gives one. */
  ghost predicate DealSelection(h: map<string, seq<PriceRecord>>, items: seq<BillItem>, ds: seq<Deal>, idx: seq<nat>)
    requires HistoriesNonEmpty(h)
  {
    && |idx| == |ds|
    && (forall k | 0 <= k < |idx| :: idx[k] < |items| && CheckDeal(h, items[idx[k]]) == Found(ds[k]))
    && (forall k, l | 0 <= k < l < |idx| :: idx[k] < idx[l])
    && (forall i | 0 <= i < |items| && CheckDeal(h, items[i]).Found? :: i in idx)
  }

  /** An item without a deal extends the selection with nothing. */
  lemma SelectionSkip(h: map<string, seq<PriceRecord>>, init: seq<BillItem>, last: BillItem, ds: seq<Deal>, idx: seq<nat>)
    requires HistoriesNonEmpty(h) && DealSelection(h, init, ds, idx) && CheckDeal(h, last).NoDeal?
    ensures DealSelection(h, init + [last], ds, idx)
  {
    var items := init + [last];
    assert forall i | 0 <= i < |init| :: items[i] == init[i];
  }

  /** An item with a deal extends the selection with its own position. */
  lemma SelectionTake(h: map<string, seq<PriceRecord>>, init: seq<BillItem>, last: BillItem, d: Deal, ds: seq<Deal>, idx: seq<nat>)
    requires HistoriesNonEmpty(h) && DealSelection(h, init, ds, idx) && CheckDeal(h, last) == Found(d)
    ensures DealSelection(h, init + [last], ds + [d], idx + [|init|])
  {
    var items := init + [last];
    var idx' := idx + [|init|];
    assert forall i | 0 <= i < |init| :: items[i] == init[i];
    assert forall i | 0 <= i < |init| && CheckDeal(h, items[i]).Found? :: i in idx;
    assert forall k | 0 <= k < |idx| :: idx'[k] == idx[k];
  }

  /** The collected deals are the `Found` checks taken item by item, in order. */
  lemma {:induction false} CollectDealsSelection(h: map<string, seq<PriceRecord>>, items: seq<BillItem>)
    requires HistoriesNonEmpty(h) && CollectDeals(h, items).Some?
    ensures exists idx: seq<nat> :: DealSelection(h, items, CollectDeals(h, items).value, idx)
    decreases |items|
  {
    if items == [] {
      assert DealSelection(h, items, [], []);
    } else {
      var init := items[..|items| - 1];
      var last := items[|items| - 1];
      assert items == init + [last];
      CollectDealsSelection(h, init);
      var ds0 := CollectDeals(h, init).value;
      var idx0: seq<nat> :| DealSelection(h, init, ds0, idx0);
      match CheckDeal(h, last)
      case NoDeal =>
        SelectionSkip(h, init, last, ds0, idx0);
      case Found(d) =>
        SelectionTake(h, init, last, d, ds0, idx0);
    }
  }

  /** `find_best_deals` raises exactly when some item with history is priced
      below an average of 0. */
  lemma BestDealsRaises(h: map<string, seq<PriceRecord>>, items: seq<BillItem>)
    requires HistoriesNonEmpty(h)
    ensures BestDeals(h, items).None? <==>
      exists i | 0 <= i < |items| :: items[i].name in h && ItemPrice(items[i]) < Average(h[items[i].name]) == 0.0
  {
    CollectDealsSpec(h, items);
  }

  /** A reported deal is an item with history whose price is strictly below
      its historical average, so it saves a positive amount; deals come with
      the largest relative saving first and are the collected deals reordered,
      one for each item that has one. */
  lemma BestDealsSound(h: map<string, seq<PriceRecord>>, items: seq<BillItem>)
    requires HistoriesNonEmpty(h) && BestDeals(h, items).Some?
    ensures var r := BestDeals(h, items).value;
      && |r| <= |items|
      && SortedDesc(r, RoundedPercent)
      && (forall k | 0 <= k < |r| ::
            && r[k].item in h
            && r[k].avgPrice == Average(h[r[k].item])
            && r[k].currentPrice < r[k].avgPrice
            && r[k].savings == r[k].avgPrice - r[k].currentPrice > 0.0
            && exists i | 0 <= i < |items| :: items[i].name == r[k].item && ItemPrice(items[i]) == r[k].currentPrice)
      && multiset(r) == multiset(CollectDeals(h, items).value)
      && exists idx :: DealSelection(h, items, CollectDeals(h, items).value, idx)
  {
    CollectDealsSpec(h, items);
    CollectDealsSelection(h, items);
    var ds := CollectDeals(h, items).value;
    var r := SortDesc(ds, RoundedPercent);
    forall k | 0 <= k < |r|
      ensures exists i | 0 <= i < |items| :: CheckDeal(h, items[i]) == Found(r[k])
    {
      assert r[k] in multiset(ds);
    }
  }

  /** The order of the report: non-increasing by the rounded percent, so
      within a hundredth of non-increasing by the exact one, and deals whose
      rounded percents are equal keep the order of their items. */
  lemma BestDealsOrder(h: map<string, seq<PriceRecord>>, items: seq<BillItem>)
    requires HistoriesNonEmpty(h) && BestDeals(h, items).Some?
    ensures var r := BestDeals(h, items).value;
      var ds := CollectDeals(h, items).value;
      && SortedDesc(r, RoundedPercent)
      && (forall i, j | 0 <= i < j < |r| :: r[j].savingsPercent <= r[i].savingsPercent + 0.01)
      && (forall v :: Tied(r, RoundedPercent, v) == Tied(ds, RoundedPercent, v))
  {
    var ds := CollectDeals(h, items).value;
    var r := SortDesc(ds, RoundedPercent);
    forall i, j | 0 <= i < j < |r| ensures r[j].savingsPercent <= r[i].savingsPercent + 0.01 {
      Round2Order(r[i].savingsPercent, r[j].savingsPercent);
    }
    forall v ensures Tied(r, RoundedPercent, v) == Tied(ds, RoundedPercent, v) {
      SortDescStable(ds, RoundedPercent, v);
    }
  }

  /** Every item priced below its non-zero historical average is reported. */
  lemma BestDealsComplete(h: map<string, seq<PriceRecord>>, items: seq<BillItem>, i: nat)
    requires HistoriesNonEmpty(h) && BestDeals(h, items).Some?
    requires i < |items| && items[i].name in h && ItemPrice(items[i]) < Average(h[items[i].name])
    ensures var r := BestDeals(h, items).value;
      exists k | 0 <= k < |r| :: r[k].item == items[i].name && r[k].currentPrice == ItemPrice(items[i])
  {
    CollectDealsSpec(h, items);
    var ds := CollectDeals(h, items).value;
    var d := CheckDeal(h, items[i]).deal;
    assert d in multiset(SortDesc(ds, RoundedPercent));
  }

  class PriceTracker {
    /** `price_history`: item name to its observations, oldest first. */
    var history: map<string, seq<PriceRecord>>

    ghost predicate Valid()
      reads this
    {
      HistoriesNonEmpty(history)
    }

    constructor()
      ensures Valid() && history == map[]
    {
      history := map[];
    }

    method AddItemPrice(name: string, price: real, date: int)
      requires Valid()
      modifies this
      ensures Valid()
      ensures history == Appended(old(history), name, PriceRecord(price, date))
    {
      AppendedSpec(history, name, PriceRecord(price, date));
      var prior := if name in history then history[name] else [];
      history := history[name := prior + [PriceRecord(price, date)]];
    }

    /** `None` for an item never recorded, otherwise its trend report. */
    function GetPriceTrend(name: string): (r: Option<PriceTrendReport>)
      reads this
      ensures r.None? <==> name !in history
      ensures r.Some? ==> (r.value.InsufficientData? <==> |history[name]| < 2)
    {
      if name !in history then None else Some(TrendOf(name, history[name]))
    }

    method FindBestDeals(items: seq<BillItem>) returns (r: Option<seq<Deal>>)
      requires Valid()
      ensures r == BestDeals(history, items)
    {
      var deals: seq<Deal> := [];
      for i := 0 to |items|
        invariant CollectDeals(history, items[..i]) == Some(deals)
      {
        var item := items[i];
        assert items[..i + 1][..i] == items[..i];
        if item.name in history {
          var recs := history[item.name];
          var avg := TotalBy(recs, RecordPrice) / (|recs| as real);
          var price := ItemPrice(item);
          if price < avg {
            if avg == 0.0 {
              NoneStaysNone(history, items, i + 1);
              return None;
            }
            var savings := avg - price;
            deals := deals + [Deal(item.name, price, avg, savings, savings / avg * 100.0)];
          }
        }
      }
      assert items[..|items|] == items;
      r := Some(SortDesc(deals, RoundedPercent));
    }
  }

  /** Once the loop has raised, the whole call raises. */
  lemma {:induction false} NoneStaysNone(h: map<string, seq<PriceRecord>>, items: seq<BillItem>, n: nat)
    requires HistoriesNonEmpty(h)
    requires n <= |items| && CollectDeals(h, items[..n]).None?
    ensures CollectDeals(h, items).None?
    decreases |items| - n
  {
    if n < |items| {
      assert items[..n + 1][..n] == items[..n];
      NoneStaysNone(h, items, n + 1);
    } else {
      assert items[..n] == items;
    }
  }
}

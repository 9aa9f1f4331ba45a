/** `Calculator` of the back end (`backend/services/calculator.py`): subtotal,
    tax, total and percentage discount of a bill. Amounts are stated before
    the `round(..., 2)` each method applies. */
module Calculation {
  import opened Common
  import opened BillData

  const DefaultTaxRate: real := 0.08

  /** The subtotal of a list of items: the sum of `price * quantity`, a
      missing price read as 0 and a missing quantity as 1. */
  function Subtotal(items: seq<BillItem>): real
  {
    TotalBy(items, LineAmount)
  }

  /** A calculator; its tax rate is fixed when it is made. */
  datatype Calculator = Calculator(taxRate: real)
  {
    /** `calculate_subtotal` */
    method CalculateSubtotal(items: seq<BillItem>) returns (subtotal: real)
      ensures subtotal == Subtotal(items)
    {
      subtotal := 0.0;
      for i := 0 to |items|
        invariant subtotal == TotalBy(items[..i], LineAmount)
      {
        TakeSnoc(items, i);
        var price := ItemPrice(items[i]);
        var quantity := ItemQuantity(items[i]);
        subtotal := subtotal + price * (quantity as real);
      }
      assert items[..|items|] == items;
    }

    /** `calculate_tax` */
    function CalculateTax(subtotal: real): real
    {
      subtotal * taxRate
    }

    /** `calculate_total` */
    function CalculateTotal(subtotal: real, tax: real, discount: real := 0.0): real
    {
      subtotal + tax - discount
    }

    /** `apply_discount` */
    function ApplyDiscount(total: real, percentage: real): real
    {
      total - total * (percentage / 100.0)
    }
  }

  /** `Calculator()` */
  function DefaultCalculator(): Calculator
  {
    Calculator(DefaultTaxRate)
  }

  /** An empty list costs nothing. */
  lemma SubtotalEmpty()
    ensures Subtotal([]) == 0.0
  {
  }

  /** The subtotal of two lists together is the sum of their subtotals. */
  lemma SubtotalAppend(a: seq<BillItem>, b: seq<BillItem>)
    ensures Subtotal(a + b) == Subtotal(a) + Subtotal(b)
  {
    TotalByAppend(a, b, LineAmount);
  }

  /** The order of the items does not change the subtotal. */
  lemma SubtotalPermutation(a: seq<BillItem>, b: seq<BillItem>)
    requires multiset(a) == multiset(b)
    ensures Subtotal(a) == Subtotal(b)
  {
    TotalByPermutation(a, b, LineAmount);
  }

  /** Without negative prices or quantities the subtotal is not negative. */
  lemma {:induction false} SubtotalNonNegative(items: seq<BillItem>)
    requires forall i | 0 <= i < |items| :: ItemPrice(items[i]) >= 0.0 && ItemQuantity(items[i]) >= 0
    ensures Subtotal(items) >= 0.0
    decreases |items|
  {
    if items != [] {
      var init := items[..|items| - 1];
      assert forall i | 0 <= i < |init| :: init[i] == items[i];
      SubtotalNonNegative(init);
      var last := items[|items| - 1];
      MulLe(ItemPrice(last), 0.0, ItemQuantity(last) as real);
    }
  }

  /** Without a discount, the total is the subtotal grown by the tax rate. */
  lemma TotalWithTax(c: Calculator, subtotal: real)
    ensures c.CalculateTotal(subtotal, c.CalculateTax(subtotal)) == subtotal * (1.0 + c.taxRate)
  {
  }

  /** `Calculator()` charges 8 percent: without a discount its total is the
      subtotal times 1.08. */
  lemma DefaultTotal(subtotal: real)
    ensures var c := DefaultCalculator();
      c.CalculateTotal(subtotal, c.CalculateTax(subtotal)) == subtotal * 1.08
  {
    TotalWithTax(DefaultCalculator(), subtotal);
  }

  /** A percentage between 0 and 100 leaves a non-negative total between 0
      and the original. */
  lemma ApplyDiscountBounds(c: Calculator, total: real, percentage: real)
    requires total >= 0.0 && 0.0 <= percentage <= 100.0
    ensures 0.0 <= c.ApplyDiscount(total, percentage) <= total
  {
    var f := percentage / 100.0;
    assert 0.0 <= f <= 1.0;
    ScaleBetween(total, f);
    assert c.ApplyDiscount(total, percentage) == total - total * f;
  }

  /** 0 percent changes nothing and 100 percent leaves nothing. */
  lemma ApplyDiscountEdges(c: Calculator, total: real)
    ensures c.ApplyDiscount(total, 0.0) == total
    ensures c.ApplyDiscount(total, 100.0) == 0.0
  {
  }
}

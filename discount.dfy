/** `Discount` of the back end (`backend/services/discount.py`): a fixed
    percentage taken off an amount. */
module Discounts {
  import Calculation

  /** A discount; its percentage is fixed when it is made. */
  datatype Discount = Discount(percentage: real)
  {
    /** `calculate_discount`: the part of the amount taken off. */
    function CalculateDiscount(totalAmount: real): real
    {
      totalAmount * (percentage / 100.0)
    }

    /** `apply_discount`: the amount that remains. */
    function ApplyDiscount(totalAmount: real): real
    {
      totalAmount - CalculateDiscount(totalAmount)
    }
  }

  /** A percentage between 0 and 100 takes off between nothing and all of a
      non-negative amount. */
  lemma DiscountBounds(d: Discount, totalAmount: real)
    requires totalAmount >= 0.0 && 0.0 <= d.percentage <= 100.0
    ensures 0.0 <= d.CalculateDiscount(totalAmount) <= totalAmount
    ensures 0.0 <= d.ApplyDiscount(totalAmount) <= totalAmount
  {
    Calculation.ApplyDiscountBounds(Calculation.DefaultCalculator(), totalAmount, d.percentage);
  }

  /** Before rounding the discount gives what the calculator gives for the
      same percentage, whatever the calculator's tax rate. */
  lemma DiscountAgreesWithCalculator(d: Discount, c: Calculation.Calculator, totalAmount: real)
    ensures d.ApplyDiscount(totalAmount) == c.ApplyDiscount(totalAmount, d.percentage)
  {
  }
}

/** The stored bill records that the back-end services read. A record is a
    dictionary whose keys may be missing; a missing key reads as the default
    that `dict.get` supplies at each use. */
module BillData {
  import opened Common

  /** One line of a bill. */
  datatype BillItem = BillItem(name: string, category: Option<string>, price: Option<real>, quantity: Option<int>)

  /** A bill. `month` is the calendar month of its `created_at` date as a month
      number, `createdAt` that date as a comparable timestamp. */
  datatype Bill = Bill(month: int, createdAt: int, total: Option<real>, items: seq<BillItem>)

  function ItemName(it: BillItem): string
  {
    it.name
  }

  /** `item.get('category', 'General')` */
  function ItemCategory(it: BillItem): string
  {
    if it.category.Some? then it.category.value else "General"
  }

  /** `item.get('price', 0)` */
  function ItemPrice(it: BillItem): real
  {
    if it.price.Some? then it.price.value else 0.0
  }

  /** `item.get('quantity', 1)` */
  function ItemQuantity(it: BillItem): int
  {
    if it.quantity.Some? then it.quantity.value else 1
  }

  /** The quantity as an amount, for sums. */
  function QuantityAmount(it: BillItem): real
  {
    ItemQuantity(it) as real
  }

  /** `price * quantity` of one line. */
  function LineAmount(it: BillItem): real
  {
    ItemPrice(it) * (ItemQuantity(it) as real)
  }

  /** `bill.get('total', 0)` */
  function BillTotal(b: Bill): real
  {
    if b.total.Some? then b.total.value else 0.0
  }

  function BillMonth(b: Bill): int
  {
    b.month
  }

  /** All item lines of the bills, bill by bill, in order. */
  function LinesOf(bills: seq<Bill>): seq<BillItem>
    decreases |bills|
  {
    if bills == [] then [] else LinesOf(bills[..|bills| - 1]) + bills[|bills| - 1].items
  }

  lemma LinesOfSnoc(bills: seq<Bill>, b: Bill)
    ensures LinesOf(bills + [b]) == LinesOf(bills) + b.items
  {
    assert (bills + [b])[..|bills|] == bills;
  }

  lemma LinesOfTake(bills: seq<Bill>, i: nat)
    requires i < |bills|
    ensures LinesOf(bills[..i + 1]) == LinesOf(bills[..i]) + bills[i].items
  {
    assert bills[..i + 1][..i] == bills[..i];
  }
}

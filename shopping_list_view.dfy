/** The shopping-list screen of the front end (`src/components/ShoppingList.js`):
    ticking items off, the colour of each priority badge, and the estimated
    total of the suggested items. */
module ShoppingListScreen {
  import opened Common
  import opened ShoppingLists

  /** The checked set after toggling `name`. */
  function Toggled(checked: set<string>, name: string): set<string>
  {
    if name in checked then checked - {name} else checked + {name}
  }

  /** Toggling flips the membership of the toggled name. */
  lemma ToggledFlips(checked: set<string>, name: string)
    ensures name in Toggled(checked, name) <==> name !in checked
  {
  }

  /** Toggling leaves the membership of every other name as it was. */
  lemma ToggledOthers(checked: set<string>, name: string, other: string)
    requires other != name
    ensures other in Toggled(checked, name) <==> other in checked
  {
  }

  /** Toggling the same name twice restores the set. */
  lemma ToggledTwice(checked: set<string>, name: string)
    ensures Toggled(Toggled(checked, name), name) == checked
  {
    if name in checked {
      assert checked - {name} + {name} == checked;
    } else {
      assert checked + {name} - {name} == checked;
    }
  }

  class ShoppingListView {
    var checked: set<string>

    constructor()
      ensures checked == {}
    {
      checked := {};
    }

    /** `toggleItem`: a copy of the set with the name added or deleted
        replaces the set. */
    method ToggleItem(name: string)
      modifies this
      ensures checked == Toggled(old(checked), name)
      ensures name in checked <==> name !in old(checked)
      ensures forall other | other != name :: other in checked <==> other in old(checked)
    {
      var copy := checked;
      if name in copy {
        copy := copy - {name};
      } else {
        copy := copy + {name};
      }
      checked := copy;
    }
  }

  const HighColor: string := "#ff6b6b"
  const MediumColor: string := "#ffa94d"
  const LowColor: string := "#51cf66"
  const DefaultColor: string := "#868e96"

  /** `getPriorityColor` */
  function PriorityColor(priority: string): (c: string)
  {
    match priority
    case "high" => HighColor
    case "medium" => MediumColor
    case "low" => LowColor
    case _ => DefaultColor
  }

  /** The priority as the back end sends it. */
  function PriorityName(p: Priority): string
  {
    match p
    case High => "high"
    case Medium => "medium"
    case Low => "low"
  }

  /** Each of the three priorities gets its own colour, none of them the
      grey that any other text gets. */
  lemma PriorityColors(p: Priority, q: Priority, other: string)
    requires other != "high" && other != "medium" && other != "low"
    ensures PriorityColor(PriorityName(p)) != PriorityColor(other)
    ensures PriorityColor(other) == DefaultColor
    ensures PriorityColor(PriorityName(p)) == PriorityColor(PriorityName(q)) <==> p == q
  {
  }

  /** What one suggested item is expected to cost. */
  function SuggestionCost(s: Suggestion): real
  {
    s.estimatedPrice * (s.suggestedQuantity as real)
  }

  /** `suggested_items.reduce((sum, item) => sum + item.estimated_price * item.suggested_quantity, 0)` */
  function EstimatedTotal(items: seq<Suggestion>): real
  {
    TotalBy(items, SuggestionCost)
  }

  /** The total of two lists of suggestions is the sum of their totals. */
  lemma EstimatedTotalAppend(a: seq<Suggestion>, b: seq<Suggestion>)
    ensures EstimatedTotal(a + b) == EstimatedTotal(a) + EstimatedTotal(b)
  {
    TotalByAppend(a, b, SuggestionCost);
  }

  /** With no negative price or quantity, the estimate is not negative. */
  lemma {:induction false} EstimatedTotalNonNegative(items: seq<Suggestion>)
    requires forall i | 0 <= i < |items| :: items[i].estimatedPrice >= 0.0 && items[i].suggestedQuantity >= 0
    ensures EstimatedTotal(items) >= 0.0
    decreases |items|
  {
    if items != [] {
      var last := items[|items| - 1];
      EstimatedTotalNonNegative(items[..|items| - 1]);
      MulLe(last.estimatedPrice, 0.0, last.suggestedQuantity as real);
    }
  }
}

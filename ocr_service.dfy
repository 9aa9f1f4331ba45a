/** `ReceiptOCRService` of the back end: turning the text recognised on a
    receipt into bill items, and guessing each item's category from keywords.
    The price pattern `\$?\d+\.?\d{0,2}` is written out as a scanner. */
module ReceiptOcr {
  import opened Common
  import opened Text

  // ----- the price pattern ------------------------------------------------

  /** The end of the run of digits that starts at `i`. */
  function DigitsEnd(s: string, i: nat): (j: nat)
    requires i <= |s|
    ensures i <= j <= |s|
    ensures forall k | i <= k < j :: IsDigit(s[k])
    ensures j == |s| || !IsDigit(s[j])
    decreases |s| - i
  {
    if i == |s| || !IsDigit(s[i]) then i else DigitsEnd(s, i + 1)
  }

  /** The pattern matches starting at `p`: an optional `$`, then a digit. */
  predicate MatchStart(s: string, p: nat)
  {
    p < |s| && (IsDigit(s[p]) || (s[p] == '$' && p + 1 < |s| && IsDigit(s[p + 1])))
  }

  /** The greedy match at a starting position: `start` is where the optional
      `$` would be, `digits` where the digits start, `intEnd` where they end,
      `dot` whether a `.` follows, and `end` the end of the match. */
  datatype PriceMatch = PriceMatch(start: nat, digits: nat, intEnd: nat, dot: bool, end: nat)

  function MatchAt(s: string, p: nat): (m: PriceMatch)
    requires MatchStart(s, p)
    ensures m.start == p
    ensures m.digits == (if s[p] == '$' then p + 1 else p)
    ensures m.digits < m.intEnd <= m.end <= |s|
    ensures forall k | m.digits <= k < m.intEnd :: IsDigit(s[k])
    ensures m.intEnd == |s| || !IsDigit(s[m.intEnd])
    ensures m.dot <==> m.intEnd < |s| && s[m.intEnd] == '.'
    ensures !m.dot ==> m.end == m.intEnd
    ensures m.dot ==> m.intEnd + 1 <= m.end <= m.intEnd + 3
    ensures m.dot ==> forall k | m.intEnd + 1 <= k < m.end :: IsDigit(s[k])
    ensures m.dot && m.end < m.intEnd + 3 ==> m.end == |s| || !IsDigit(s[m.end])
  {
    var q := if s[p] == '$' then p + 1 else p;
    var e := DigitsEnd(s, q);
    if e < |s| && s[e] == '.' then
      var f := DigitsEnd(s, e + 1);
      PriceMatch(p, q, e, true, if f < e + 3 then f else e + 3)
    else
      PriceMatch(p, q, e, false, e)
  }

  /** `price_pattern.search(s)`: the leftmost position at or after `from`
      where the pattern matches. */
  function Search(s: string, from: nat): (r: Option<nat>)
    ensures r.Some? ==> from <= r.value && MatchStart(s, r.value)
    ensures r.Some? ==> forall p | from <= p < r.value :: !MatchStart(s, p)
    ensures r.None? ==> forall p | from <= p < |s| :: !MatchStart(s, p)
    decreases |s| - from
  {
    if from >= |s| then None
    else if MatchStart(s, from) then Some(from)
    else Search(s, from + 1)
  }

  function DigitValue(c: char): nat
  {
    if IsDigit(c) then (c as int - '0' as int) else 0
  }

  /** The number a string of decimal digits denotes. */
  function NatValue(ds: string): nat
    decreases |ds|
  {
    if ds == [] then 0 else NatValue(ds[..|ds| - 1]) * 10 + DigitValue(ds[|ds| - 1])
  }

  function Pow10(n: nat): (r: nat)
    ensures r >= 1
  {
    if n == 0 then 1 else 10 * Pow10(n - 1)
  }

  lemma {:induction false} NatValueBound(ds: string)
    ensures NatValue(ds) < Pow10(|ds|)
    decreases |ds|
  {
    if ds != [] {
      NatValueBound(ds[..|ds| - 1]);
    }
  }

  /** `float(match.group().replace('$', ''))`: digits, and after a `.` up to two more. */
  function MatchValue(s: string, m: PriceMatch): (v: real)
    requires m.digits <= m.intEnd <= m.end <= |s|
    requires m.dot ==> m.intEnd + 1 <= m.end
    ensures NatValue(s[m.digits..m.intEnd]) as real <= v < NatValue(s[m.digits..m.intEnd]) as real + 1.0
  {
    var whole := NatValue(s[m.digits..m.intEnd]) as real;
    if m.dot then
      var frac := s[m.intEnd + 1..m.end];
      NatValueBound(frac);
      FractionBelowOne(NatValue(frac), Pow10(|frac|));
      whole + (NatValue(frac) as real) / (Pow10(|frac|) as real)
    else whole
  }

  // ----- _categorize_item -------------------------------------------------

  const Categories: seq<(string, seq<string>)> := [
    ("Fruits", ["apple", "banana", "orange", "grape", "berry", "mango"]),
    ("Vegetables", ["carrot", "tomato", "lettuce", "onion", "potato", "broccoli"]),
    ("Dairy", ["milk", "cheese", "yogurt", "butter", "cream"]),
    ("Meat", ["chicken", "beef", "pork", "fish", "turkey"]),
    ("Bakery", ["bread", "cake", "cookie", "pastry", "bun"]),
    ("Beverages", ["juice", "soda", "water", "tea", "coffee"]),
    ("Snacks", ["chips", "candy", "chocolate", "nuts", "popcorn"])
  ]

  /** `any(keyword in text for keyword in keywords)` */
  predicate AnyKeyword(text: string, keywords: seq<string>)
  {
    exists k | 0 <= k < |keywords| :: Contains(text, keywords[k])
  }

  /** The first category, in the listed order, with a keyword in `text`. */
  function FirstCategory(cats: seq<(string, seq<string>)>, text: string): (r: Option<nat>)
    ensures r.None? <==> forall i | 0 <= i < |cats| :: !AnyKeyword(text, cats[i].1)
    ensures r.Some? ==> r.value < |cats| && AnyKeyword(text, cats[r.value].1)
    ensures r.Some? ==> forall i | 0 <= i < r.value :: !AnyKeyword(text, cats[i].1)
    decreases |cats|
  {
    if cats == [] then None
    else if AnyKeyword(text, cats[0].1) then Some(0)
    else
      var r := FirstCategory(cats[1..], text);
      assert forall i | 1 <= i < |cats| :: cats[i] == cats[1..][i - 1];
      if r.None? then None else Some(r.value + 1)
  }

  /** `_categorize_item` */
  function Categorize(name: string): string
  {
    var r := FirstCategory(Categories, Lower(name));
    if r.None? then "General" else Categories[r.value].0
  }

  /** Case-insensitive keyword match, the first category in the listed order
      wins, and 'General' exactly when no keyword occurs. */
  lemma CategorizeSpec(name: string)
    ensures Categorize(name) == "General" <==> forall i | 0 <= i < |Categories| :: !AnyKeyword(Lower(name), Categories[i].1)
    ensures Categorize(name) != "General" ==> exists i | 0 <= i < |Categories| ::
              && Categorize(name) == Categories[i].0
              && AnyKeyword(Lower(name), Categories[i].1)
              && forall j | 0 <= j < i :: !AnyKeyword(Lower(name), Categories[j].1)
  {
  }

  // ----- parse_receipt_text -----------------------------------------------

  datatype ReceiptItem = ReceiptItem(name: string, price: real, quantity: int, category: string)

  /** What one line of the receipt yields. */
  function ParseLine(raw: string): Option<ReceiptItem>
  {
    var line := Strip(raw);
    if line == [] then None
    else
      match Search(line, 0)
      case None => None
      case Some(p) =>
        var name := Strip(line[..p]);
        if |name| > 2 then Some(ReceiptItem(name, MatchValue(line, MatchAt(line, p)), 1, Categorize(name)))
        else None
  }

  /** A blank line, or one without a price, yields nothing; otherwise the
      line yields an item exactly when the stripped text before the leftmost
      price has more than two characters, and then the item has that name,
      the price's value, quantity 1 and the name's category. */
  lemma ParseLineSpec(raw: string)
    ensures Strip(raw) == [] ==> ParseLine(raw).None?
    ensures Search(Strip(raw), 0).None? ==> ParseLine(raw).None?
    ensures Strip(raw) != [] && Search(Strip(raw), 0).Some? ==>
      var line := Strip(raw);
      var p := Search(line, 0).value;
      && (ParseLine(raw).Some? <==> |Strip(line[..p])| > 2)
      && (ParseLine(raw).Some? ==>
            && ParseLine(raw).value.name == Strip(line[..p])
            && ParseLine(raw).value.price == MatchValue(line, MatchAt(line, p))
            && ParseLine(raw).value.quantity == 1
            && ParseLine(raw).value.category == Categorize(ParseLine(raw).value.name))
  {
  }

  /** The items of a sequence of lines, in line order. */
  function ItemsOfLines(lines: seq<string>): seq<ReceiptItem>
    decreases |lines|
  {
    if lines == [] then []
    else
      var last := ParseLine(lines[|lines| - 1]);
      ItemsOfLines(lines[..|lines| - 1]) + (if last.Some? then [last.value] else [])
  }

  lemma ItemsOfLinesSnoc(lines: seq<string>, line: string)
    ensures ItemsOfLines(lines + [line])
         == ItemsOfLines(lines) + (if ParseLine(line).Some? then [ParseLine(line).value] else [])
  {
    assert (lines + [line])[..|lines|] == lines;
  }

  /** `text.strip().split('\n')` */
  function ReceiptLines(text: string): seq<string>
  {
    Split(Strip(text), '\n')
  }

  method ParseReceiptText(text: string) returns (items: seq<ReceiptItem>)
    ensures items == ItemsOfLines(ReceiptLines(text))
  {
    items := [];
    var lines := Split(Strip(text), '\n');
    for i := 0 to |lines|
      invariant items == ItemsOfLines(lines[..i])
    {
      TakeSnoc(lines, i);
      ItemsOfLinesSnoc(lines[..i], lines[i]);
      var parsed := ParseLine(lines[i]);
      if parsed.Some? {
        items := items + [parsed.value];
      }
    }
    assert lines[..|lines|] == lines;
  }

  /** Lines contribute independently and in order: the items of two blocks
      of lines are the items of the first followed by those of the second. */
  lemma {:induction false} ItemsOfLinesAppend(a: seq<string>, b: seq<string>)
    ensures ItemsOfLines(a + b) == ItemsOfLines(a) + ItemsOfLines(b)
    decreases |b|
  {
    if b == [] {
      assert a + b == a;
    } else {
      var b' := b[..|b| - 1];
      assert (a + b)[..|a + b| - 1] == a + b';
      assert (a + b)[|a + b| - 1] == b[|b| - 1];
      ItemsOfLinesAppend(a, b');
    }
  }

  /** At most one item per line, and each item is what its line yields. */
  lemma {:induction false} ItemsOfLinesSpec(lines: seq<string>)
    ensures |ItemsOfLines(lines)| <= |lines|
    ensures forall it | it in ItemsOfLines(lines) :: exists i | 0 <= i < |lines| :: ParseLine(lines[i]) == Some(it)
    decreases |lines|
  {
    if lines != [] {
      var init := lines[..|lines| - 1];
      ItemsOfLinesSpec(init);
      assert forall i | 0 <= i < |init| :: init[i] == lines[i];
    }
  }
}

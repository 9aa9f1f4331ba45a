/** The input validators of the back end (`backend/utils/validators.py`):
    password strength, the two e-mail formats, item prices and quantities,
    and the item list of a bill. Each regular expression is written out as
    the unique way the string splits around its `@` and its `.`. */
module Validators {
  import opened Common
  import opened Text

  // ----- validate_password ------------------------------------------------

  /** The four character classes a strong password must contain. */
  datatype CharClass = Upper | Lower | Digit | Special

  const SpecialChars: string := "!@#$%^&*(),.?\":{}|<>"

  predicate InClass(c: char, k: CharClass)
  {
    match k
    case Upper => IsUpper(c)
    case Lower => IsLower(c)
    case Digit => IsDigit(c)
    case Special => c in SpecialChars
  }

  /** The string holds a character of the class. */
  ghost predicate HasClass(s: string, k: CharClass)
  {
    exists i | 0 <= i < |s| :: InClass(s[i], k)
  }

  /** `re.search(class, s)`: a left-to-right scan for a character of the class. */
  function Search(s: string, k: CharClass): (found: bool)
    ensures found <==> HasClass(s, k)
    decreases |s|
  {
    if s == [] then false
    else if InClass(s[0], k) then true
    else
      var found := Search(s[1..], k);
      assert forall i | 1 <= i < |s| :: s[i] == s[1..][i - 1];
      found
  }

  /** The strength rule itself: at least eight characters and one of each class. */
  ghost predicate StrongPassword(p: string)
  {
    |p| >= 8 && HasClass(p, Upper) && HasClass(p, Lower) && HasClass(p, Digit) && HasClass(p, Special)
  }

  /** The checks after the length check, in the order they run. */
  const ClassOrder: seq<CharClass> := [Upper, Lower, Digit, Special]

  function MissingMessage(k: CharClass): string
  {
    match k
    case Upper => "Password must contain at least one uppercase letter"
    case Lower => "Password must contain at least one lowercase letter"
    case Digit => "Password must contain at least one number"
    case Special => "Password must contain at least one special character"
  }

  const TooShortMessage := "Password must be at least 8 characters long"
  const ValidPasswordMessage := "Password is valid"

  /** The pair `(is_valid, message)` returned by `validate_password`. */
  datatype PasswordVerdict = PasswordVerdict(valid: bool, message: string)

  function ValidatePassword(p: string): (r: PasswordVerdict)
    ensures r.valid <==> StrongPassword(p)
    ensures r.valid ==> r.message == ValidPasswordMessage
    ensures |p| < 8 ==> r.message == TooShortMessage
    ensures |p| >= 8 && !r.valid ==> exists j | 0 <= j < |ClassOrder| ::
              && r.message == MissingMessage(ClassOrder[j])
              && !Search(p, ClassOrder[j])
              && forall j' | 0 <= j' < j :: Search(p, ClassOrder[j'])
  {
    if |p| < 8 then PasswordVerdict(false, TooShortMessage)
    else if !Search(p, Upper) then
      assert ClassOrder[0] == Upper;
      PasswordVerdict(false, MissingMessage(Upper))
    else if !Search(p, Lower) then
      assert ClassOrder[1] == Lower;
      PasswordVerdict(false, MissingMessage(Lower))
    else if !Search(p, Digit) then
      assert ClassOrder[2] == Digit;
      PasswordVerdict(false, MissingMessage(Digit))
    else if !Search(p, Special) then
      assert ClassOrder[3] == Special;
      PasswordVerdict(false, MissingMessage(Special))
    else
      PasswordVerdict(true, ValidPasswordMessage)
  }

  // ----- validate_email ---------------------------------------------------

  /** `[a-zA-Z0-9._%+-]` */
  predicate LocalChar(c: char)
  {
    IsLetter(c) || IsDigit(c) || c in "._%+-"
  }

  /** `[a-zA-Z0-9.-]` */
  predicate DomainChar(c: char)
  {
    IsLetter(c) || IsDigit(c) || c in ".-"
  }

  predicate AllLocal(s: string)
  {
    forall i | 0 <= i < |s| :: LocalChar(s[i])
  }

  predicate AllDomain(s: string)
  {
    forall i | 0 <= i < |s| :: DomainChar(s[i])
  }

  predicate AllLetters(s: string)
  {
    forall i | 0 <= i < |s| :: IsLetter(s[i])
  }

  /** `s` is `local @ domain . tld` with the `@` at `a` and that `.` at `d`. */
  predicate EmailSplit(s: string, a: nat, d: nat)
  {
    && 1 <= a && a + 2 <= d && d + 3 <= |s|
    && s[a] == '@' && s[d] == '.'
    && AllLocal(s[..a]) && AllDomain(s[a + 1..d]) && AllLetters(s[d + 1..])
  }

  /** What `^[a-zA-Z0-9._%+-]+@[a-zA-Z0-9.-]+\.[a-zA-Z]{2,}$` accepts. */
  ghost predicate EmailShape(s: string)
  {
    exists a: nat, d: nat :: EmailSplit(s, a, d)
  }

  /** Python's `$` (without `re.MULTILINE`) matches at the end of the string
      and also just before a newline that ends it. */
  predicate EndsInNewline(s: string)
  {
    |s| > 0 && s[|s| - 1] == '\n'
  }

  /** What `re.match` accepts for a pattern `^...$` whose last class holds no
      newline: the whole string, or the string up to its final newline. */
  ghost predicate EmailMatch(s: string)
  {
    EmailShape(s) || (EndsInNewline(s) && EmailShape(s[..|s| - 1]))
  }

  /** The pattern matched against the whole of `s`: neither class holds `@`,
      so the `@` is the first one; the top-level domain holds no `.`, so that
      `.` is the last one. */
  function EmailToEnd(s: string): bool
  {
    var a := IndexOf(s, '@');
    var d := LastIndexOf(s, '.');
    0 <= a && 0 <= d && EmailSplit(s, a, d)
  }

  /** `validate_email` */
  function ValidateEmail(s: string): bool
  {
    EmailToEnd(s) || (EndsInNewline(s) && EmailToEnd(s[..|s| - 1]))
  }

  /** A character class without `c` pins down where `c` first occurs. */
  lemma FirstAt(s: string, c: char, a: nat)
    requires a < |s| && s[a] == c
    requires forall i | 0 <= i < a :: s[i] != c
    ensures IndexOf(s, c) == a
  {
    var r := IndexOf(s, c);
    assert c in s;
  }

  lemma LastAt(s: string, c: char, d: nat)
    requires d < |s| && s[d] == c
    requires forall i | d < i < |s| :: s[i] != c
    ensures LastIndexOf(s, c) == d
  {
    var r := LastIndexOf(s, c);
    assert c in s;
  }

  lemma ValidateEmailIff(s: string)
    ensures ValidateEmail(s) <==> EmailMatch(s)
  {
    EmailToEndIff(s);
    if EndsInNewline(s) {
      EmailToEndIff(s[..|s| - 1]);
    }
  }

  lemma EmailToEndIff(s: string)
    ensures EmailToEnd(s) <==> EmailShape(s)
  {
    if EmailToEnd(s) {
      assert EmailSplit(s, IndexOf(s, '@'), LastIndexOf(s, '.'));
    }
    if EmailShape(s) {
      var a: nat, d: nat :| EmailSplit(s, a, d);
      forall i | 0 <= i < a ensures s[i] != '@' {
        assert LocalChar(s[..a][i]);
      }
      FirstAt(s, '@', a);
      forall i | d < i < |s| ensures s[i] != '.' {
        assert IsLetter(s[d + 1..][i - d - 1]);
      }
      LastAt(s, '.', d);
    }
  }

  // ----- validate_user_email ----------------------------------------------

  /** `[a-zA-Z0-9_.+-]` */
  predicate UserLocalChar(c: char)
  {
    IsLetter(c) || IsDigit(c) || c in "_.+-"
  }

  /** `[a-zA-Z0-9-]` */
  predicate HostChar(c: char)
  {
    IsLetter(c) || IsDigit(c) || c == '-'
  }

  /** `[a-zA-Z0-9-.]` */
  predicate SuffixChar(c: char)
  {
    IsLetter(c) || IsDigit(c) || c == '-' || c == '.'
  }

  predicate AllUserLocal(s: string)
  {
    forall i | 0 <= i < |s| :: UserLocalChar(s[i])
  }

  predicate AllHost(s: string)
  {
    forall i | 0 <= i < |s| :: HostChar(s[i])
  }

  predicate AllSuffix(s: string)
  {
    forall i | 0 <= i < |s| :: SuffixChar(s[i])
  }

  predicate UserEmailSplit(s: string, a: nat, d: nat)
  {
    && 1 <= a && a + 2 <= d && d + 2 <= |s|
    && s[a] == '@' && s[d] == '.'
    && AllUserLocal(s[..a]) && AllHost(s[a + 1..d]) && AllSuffix(s[d + 1..])
  }

  /** `^[a-zA-Z0-9_.+-]+@[a-zA-Z0-9-]+\.[a-zA-Z0-9-.]+` over the whole string. */
  ghost predicate UserEmailShape(s: string)
  {
    exists a: nat, d: nat :: UserEmailSplit(s, a, d)
  }

  /** What the pattern with its closing `$` accepts. */
  ghost predicate UserEmailMatch(s: string)
  {
    UserEmailShape(s) || (EndsInNewline(s) && UserEmailShape(s[..|s| - 1]))
  }

  const InvalidEmailMessage := "Invalid email format."

  /** The pattern matched against the whole of `s`: the host holds no `.`, so
      the `.` that ends it is the first one after the `@`. */
  function UserEmailToEnd(s: string): bool
  {
    var a := IndexOf(s, '@');
    0 <= a && UserEmailAfter(s, a, IndexOf(s[a + 1..], '.'))
  }

  /** The split with the `@` at `a` and the first `.` behind it `k` further on. */
  predicate UserEmailAfter(s: string, a: nat, k: int)
  {
    0 <= k && UserEmailSplit(s, a, a + 1 + k)
  }

  /** `validate_user_email` */
  function ValidateUserEmail(s: string): Outcome<string>
  {
    if UserEmailToEnd(s) || (EndsInNewline(s) && UserEmailToEnd(s[..|s| - 1])) then Pass
    else Fail(InvalidEmailMessage)
  }

  lemma UserEmailToEndSound(s: string)
    requires UserEmailToEnd(s)
    ensures UserEmailShape(s)
  {
    var a := IndexOf(s, '@');
    assert UserEmailAfter(s, a, IndexOf(s[a + 1..], '.'));
  }

  lemma UserEmailSound(s: string)
    requires ValidateUserEmail(s).Pass?
    ensures UserEmailMatch(s)
  {
    if UserEmailToEnd(s) {
      UserEmailToEndSound(s);
    } else {
      UserEmailToEndSound(s[..|s| - 1]);
    }
  }

  /** The host holds no `.`, so the `.` after it is the first after the `@`. */
  lemma HostEndsAtDot(s: string, a: nat, d: nat)
    requires a < d < |s| && s[d] == '.' && AllHost(s[a + 1..d])
    ensures IndexOf(s[a + 1..], '.') == d - a - 1
  {
    var t := s[a + 1..];
    var h := s[a + 1..d];
    assert h == t[..d - a - 1];
    forall i | 0 <= i < d - a - 1 ensures t[i] != '.' {
      assert HostChar(h[i]);
    }
    FirstAt(t, '.', d - a - 1);
  }

  /** The local part holds no `@`, so the `@` after it is the first one. */
  lemma UserLocalEndsAtAt(s: string, a: nat)
    requires a < |s| && s[a] == '@' && AllUserLocal(s[..a])
    ensures IndexOf(s, '@') == a
  {
    forall i | 0 <= i < a ensures s[i] != '@' {
      assert UserLocalChar(s[..a][i]);
    }
    FirstAt(s, '@', a);
  }

  lemma UserEmailToEndComplete(s: string, a: nat, d: nat)
    requires UserEmailSplit(s, a, d)
    ensures UserEmailToEnd(s)
  {
    UserLocalEndsAtAt(s, a);
    HostEndsAtDot(s, a, d);
    UserEmailAt(s, a, d);
  }

  /** Where the search finds the `@` and the `.` of an address of the form. */
  lemma UserEmailAt(s: string, a: nat, d: nat)
    requires a < d <= |s| && IndexOf(s, '@') == a && IndexOf(s[a + 1..], '.') == d - a - 1
    requires UserEmailSplit(s, a, d)
    ensures UserEmailToEnd(s)
  {
    assert a + 1 + (d - a - 1) == d;
    assert UserEmailAfter(s, a, d - a - 1);
  }

  /** Every address of the form is accepted, with or without one final newline. */
  lemma UserEmailComplete(s: string, a: nat, d: nat)
    requires UserEmailSplit(s, a, d) || (EndsInNewline(s) && UserEmailSplit(s[..|s| - 1], a, d))
    ensures ValidateUserEmail(s).Pass?
  {
    if UserEmailSplit(s, a, d) {
      UserEmailToEndComplete(s, a, d);
    } else {
      UserEmailToEndComplete(s[..|s| - 1], a, d);
    }
  }

  lemma ValidateUserEmailIff(s: string)
    ensures ValidateUserEmail(s).Pass? <==> UserEmailMatch(s)
    ensures ValidateUserEmail(s).Fail? ==> ValidateUserEmail(s).error == InvalidEmailMessage
  {
    if ValidateUserEmail(s).Pass? {
      UserEmailSound(s);
    }
    if UserEmailShape(s) {
      var a: nat, d: nat :| UserEmailSplit(s, a, d);
      UserEmailComplete(s, a, d);
    } else if EndsInNewline(s) && UserEmailShape(s[..|s| - 1]) {
      var a: nat, d: nat :| UserEmailSplit(s[..|s| - 1], a, d);
      UserEmailComplete(s, a, d);
    }
  }

  // ----- validate_item_price / validate_item_quantity ---------------------

  const NegativePriceMessage := "Price cannot be negative."
  const QuantityMessage := "Quantity must be greater than zero."

  function ValidateItemPrice(price: real): (r: Outcome<string>)
    ensures r.Fail? <==> price < 0.0
    ensures r.Fail? ==> r.error == NegativePriceMessage
  {
    if price < 0.0 then Fail(NegativePriceMessage) else Pass
  }

  function ValidateItemQuantity(quantity: real): (r: Outcome<string>)
    ensures r.Fail? <==> quantity <= 0.0
    ensures r.Fail? ==> r.error == QuantityMessage
  {
    if quantity <= 0.0 then Fail(QuantityMessage) else Pass
  }

  // ----- validate_bill_items ----------------------------------------------

  /** A list element as received: not a dictionary, or a dictionary whose
      `price` and `quantity` keys may be missing. */
  datatype RawItem = NotADict | Dict(price: Option<real>, quantity: Option<real>)

  /** The `items` argument as received: not a list, or a list. */
  datatype RawItems = NotAList | List(elems: seq<RawItem>)

  const ListMessage := "Items must be a non-empty list."
  const ShapeMessage := "Each item must be a dictionary with 'price' and 'quantity' keys."

  /** An acceptable bill item, stated directly. */
  predicate ItemAcceptable(it: RawItem)
  {
    it.Dict? && it.price.Some? && it.quantity.Some? && it.price.value >= 0.0 && it.quantity.value > 0.0
  }

  /** The checks one pass of the loop makes, in their order. */
  function CheckItem(it: RawItem): (r: Outcome<string>)
    ensures r.Pass? <==> ItemAcceptable(it)
  {
    if it.NotADict? || it.price.None? || it.quantity.None? then Fail(ShapeMessage)
    else if ValidateItemPrice(it.price.value).Fail? then ValidateItemPrice(it.price.value)
    else ValidateItemQuantity(it.quantity.value)
  }

  /** The loop over the items: the first failing item's error, if any. */
  function CheckItems(items: seq<RawItem>): (r: Outcome<string>)
    ensures r.Pass? <==> forall i | 0 <= i < |items| :: ItemAcceptable(items[i])
    ensures r.Fail? ==> exists i | 0 <= i < |items| ::
              && CheckItem(items[i]) == r
              && forall j | 0 <= j < i :: ItemAcceptable(items[j])
    decreases |items|
  {
    if items == [] then Pass
    else if CheckItem(items[0]).Fail? then CheckItem(items[0])
    else
      var r := CheckItems(items[1..]);
      assert forall i | 1 <= i < |items| :: items[i] == items[1..][i - 1];
      r
  }

  function ValidateBillItems(items: RawItems): (r: Outcome<string>)
    ensures r.Pass? <==>
              && items.List? && |items.elems| > 0
              && forall i | 0 <= i < |items.elems| :: ItemAcceptable(items.elems[i])
    ensures (items.NotAList? || items.elems == []) ==> r == Fail(ListMessage)
  {
    if items.NotAList? || |items.elems| == 0 then Fail(ListMessage)
    else CheckItems(items.elems)
  }

  /** The error reported is that of the first unacceptable item, with the
      shape check before the price check before the quantity check. */
  lemma ValidateBillItemsFirstError(items: seq<RawItem>, i: nat)
    requires i < |items| && !ItemAcceptable(items[i])
    requires forall j | 0 <= j < i :: ItemAcceptable(items[j])
    ensures ValidateBillItems(List(items)) == CheckItem(items[i])
    ensures CheckItem(items[i]) == (
      if items[i].NotADict? || items[i].price.None? || items[i].quantity.None? then Fail(ShapeMessage)
      else if items[i].price.value < 0.0 then Fail(NegativePriceMessage)
      else Fail(QuantityMessage))
  {
    var r := ValidateBillItems(List(items));
    var k :| 0 <= k < |items| && CheckItem(items[k]) == r && forall j | 0 <= j < k :: ItemAcceptable(items[j]);
    assert k == i;
  }
}

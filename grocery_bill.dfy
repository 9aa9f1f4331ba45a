/** The bill form of the front end (`src/components/GroceryBill.js`): the
    list of items being entered, the item being typed, and the guards in
    front of the calculate and save requests. A form field is either empty
    or holds a number that has already been read; the requests themselves
    are not part of this model. */
module BillForm {
  import opened Common

  /** An item as the form keeps it. */
  datatype FormItem = FormItem(name: string, price: real, quantity: int, category: string)

  /** The item being typed: `None` is an empty number field. */
  datatype Input = Input(name: string, price: Option<real>, quantity: Option<int>, category: string)

  const EmptyInput: Input := Input("", None, None, "")

  const FillAllFieldsMessage: string := "Please fill in all item fields"
  const NoItemsMessage: string := "Please add at least one item"
  const NotAuthenticatedMessage: string := "User not authenticated. Please log in again."
  const DefaultCategory: string := "General"

  /** Name, price and quantity are all filled in. */
  predicate Filled(input: Input)
  {
    input.name != "" && input.price.Some? && input.quantity.Some?
  }

  /** The item a filled-in form adds: an empty category becomes 'General'. */
  function ItemOf(input: Input): (it: FormItem)
    requires Filled(input)
    ensures it.name == input.name && it.price == input.price.value && it.quantity == input.quantity.value
    ensures input.category != "" ==> it.category == input.category
    ensures input.category == "" ==> it.category == DefaultCategory
    ensures it.category != ""
  {
    FormItem(input.name, input.price.value, input.quantity.value,
             if input.category != "" then input.category else DefaultCategory)
  }

  /** `items.filter((_, i) => i !== index)` */
  function WithoutIndex<T>(s: seq<T>, index: int): seq<T>
    decreases |s|
  {
    if s == [] then []
    else WithoutIndex(s[..|s| - 1], index) + (if |s| - 1 != index then [s[|s| - 1]] else [])
  }

  /** Past the end of the list the filter keeps everything. */
  lemma {:induction false} WithoutIndexBeyond<T>(s: seq<T>, index: int)
    requires index < 0 || |s| <= index
    ensures WithoutIndex(s, index) == s
    decreases |s|
  {
    if s != [] {
      WithoutIndexBeyond(s[..|s| - 1], index);
      assert s[..|s| - 1] + [s[|s| - 1]] == s;
    }
  }

  /** Removing index `i` of a list keeps what comes before it and what
      comes after it, in order; any other index leaves the list as it is. */
  lemma {:induction false} WithoutIndexSpec<T>(s: seq<T>, index: int)
    ensures 0 <= index < |s| ==> WithoutIndex(s, index) == s[..index] + s[index + 1..]
    ensures index < 0 || |s| <= index ==> WithoutIndex(s, index) == s
    decreases |s|
  {
    if index < 0 || |s| <= index {
      WithoutIndexBeyond(s, index);
    } else if index == |s| - 1 {
      WithoutIndexBeyond(s[..|s| - 1], index);
    } else {
      var init := s[..|s| - 1];
      WithoutIndexSpec(init, index);
      assert init[..index] == s[..index];
      assert init[index + 1..] + [s[|s| - 1]] == s[index + 1..];
    }
  }

  /** Removing the item just added gives back the list from before. */
  lemma AddThenRemove<T>(s: seq<T>, x: T)
    ensures WithoutIndex(s + [x], |s|) == s
  {
    WithoutIndexSpec(s + [x], |s|);
    assert (s + [x])[..|s|] == s;
  }

  class GroceryBillForm {
    var items: seq<FormItem>
    var current: Input
    var error: string
    var successMessage: string
    var loading: bool

    constructor()
      ensures items == [] && current == EmptyInput
      ensures error == "" && successMessage == "" && !loading
    {
      items := [];
      current := EmptyInput;
      error := "";
      successMessage := "";
      loading := false;
    }

    /** `addItem`: a form with a field missing only sets the error; a
        filled-in form appends its item, empties the form and clears the
        error. */
    method AddItem()
      modifies this
      ensures !Filled(old(current)) ==>
        && items == old(items) && current == old(current) && error == FillAllFieldsMessage
      ensures Filled(old(current)) ==>
        && items == old(items) + [ItemOf(old(current))]
        && current == EmptyInput && error == ""
      ensures successMessage == old(successMessage) && loading == old(loading)
    {
      if !Filled(current) {
        error := FillAllFieldsMessage;
        return;
      }
      var item := ItemOf(current);
      items := items + [item];
      current := EmptyInput;
      error := "";
    }

    /** `removeItem(index)`: exactly the item at `index` goes, the rest keep
        their order; an index outside the list changes nothing. */
    method RemoveItem(index: int)
      modifies this
      ensures items == WithoutIndex(old(items), index)
      ensures 0 <= index < |old(items)| ==> items == old(items)[..index] + old(items)[index + 1..]
      ensures index < 0 || |old(items)| <= index ==> items == old(items)
      ensures current == old(current) && error == old(error)
      ensures successMessage == old(successMessage) && loading == old(loading)
    {
      WithoutIndexSpec(items, index);
      items := WithoutIndex(items, index);
    }

    /** The guard of `handleCalculate`: an empty list is refused with an
        error; otherwise the request starts with the error cleared. */
    method StartCalculate() returns (proceed: bool)
      modifies this
      ensures proceed <==> items != []
      ensures !proceed ==> error == NoItemsMessage && loading == old(loading)
      ensures proceed ==> error == "" && loading
      ensures items == old(items) && current == old(current) && successMessage == old(successMessage)
    {
      if |items| == 0 {
        error := NoItemsMessage;
        return false;
      }
      loading := true;
      error := "";
      return true;
    }

    /** The guards of `handleSaveBill`: an empty list first, then a missing
        or empty user id; otherwise the request starts with the error and
        the success message cleared. */
    method StartSave(userId: Option<string>) returns (proceed: bool)
      modifies this
      ensures proceed <==> items != [] && userId.Some? && userId.value != ""
      ensures items == [] ==> error == NoItemsMessage
      ensures items != [] && (userId.None? || userId.value == "") ==> error == NotAuthenticatedMessage
      ensures !proceed ==> loading == old(loading) && successMessage == old(successMessage)
      ensures proceed ==> error == "" && successMessage == "" && loading
      ensures items == old(items) && current == old(current)
    {
      if |items| == 0 {
        error := NoItemsMessage;
        return false;
      }
      if userId.None? || userId.value == "" {
        error := NotAuthenticatedMessage;
        return false;
      }
      loading := true;
      error := "";
      successMessage := "";
      return true;
    }
  }
}

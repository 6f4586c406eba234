/**
 * The grocery-list page: a list of items whose quantities the -1 / +1 buttons
 * adjust, floored at zero, and three independent shopping-preference fields.
 */
module GroceryList {

  /** A grocery line. `quantity` is a JavaScript number; the model keeps it an integer. */
  datatype GroceryItem = GroceryItem(
    id: string,
    name: string,
    category: string,
    quantity: int,
    unit: string,
    alternatives: seq<string>)

  /** The shopping preferences shown above the list. */
  datatype ShoppingPreferences = ShoppingPreferences(
    organicOnly: bool,
    preferredBrands: string,
    substituteAllowed: bool)

  /** The two items the page starts with. */
  const InitialGroceryList: seq<GroceryItem> := [
    GroceryItem("1", "Organic Rolled Oats", "Grains", 1, "lb", ["Steel Cut Oats", "Quick Oats"]),
    GroceryItem("2", "Fresh Berries Mix", "Produce", 2, "cups", ["Frozen Berry Mix", "Mixed Fruit"])
  ]

  const InitialPreferences: ShoppingPreferences := ShoppingPreferences(false, "", true)

  /** The larger of two numbers. */
  function Max(a: int, b: int): int { if a < b then b else a }

  /** No item has a negative quantity. */
  predicate AllNonNegative(items: seq<GroceryItem>)
  {
    forall k :: 0 <= k < |items| ==> items[k].quantity >= 0
  }

  /**
   * The new list in `handleQuantityChange`: items with the id get their quantity moved
   * by `change` and floored at zero, each in its place; all other items, and all other
   * fields, are left as they are.
   */
  function QuantityChanged(items: seq<GroceryItem>, id: string, change: int): (r: seq<GroceryItem>)
    ensures |r| == |items|
    ensures forall k :: 0 <= k < |items| && items[k].id != id ==> r[k] == items[k]
    ensures forall k :: 0 <= k < |items| && items[k].id == id ==>
      r[k].quantity == Max(0, items[k].quantity + change) && r[k].quantity >= 0
    ensures forall k :: 0 <= k < |items| ==> r[k].(quantity := items[k].quantity) == items[k]
  {
    if items == [] then []
    else
      var item := items[0];
      [if item.id == id then item.(quantity := Max(0, item.quantity + change)) else item]
      + QuantityChanged(items[1..], id, change)
  }

  /** No item carries the id: the list comes back unchanged. */
  lemma UnknownIdUnchanged(items: seq<GroceryItem>, id: string, change: int)
    requires forall k :: 0 <= k < |items| ==> items[k].id != id
    ensures QuantityChanged(items, id, change) == items
  {
  }

  /** A change never makes a quantity negative, so a list without negative quantities keeps none. */
  lemma QuantityChangedNonNegative(items: seq<GroceryItem>, id: string, change: int)
    requires AllNonNegative(items)
    ensures AllNonNegative(QuantityChanged(items, id, change))
  {
  }

  /** The -1 button on an item at zero leaves it at zero; the +1 button on an item at q gives q + 1. */
  lemma ButtonSteps(items: seq<GroceryItem>, k: nat)
    requires k < |items|
    ensures items[k].quantity == 0 ==> QuantityChanged(items, items[k].id, -1)[k].quantity == 0
    ensures items[k].quantity >= 0 ==> QuantityChanged(items, items[k].id, 1)[k].quantity == items[k].quantity + 1
  {
  }

  /** On a list without negative quantities, +1 followed by -1 on the same id restores the list. */
  lemma IncrementThenDecrement(items: seq<GroceryItem>, id: string)
    requires AllNonNegative(items)
    ensures QuantityChanged(QuantityChanged(items, id, 1), id, -1) == items
  {
  }

  /** The page's two state cells. */
  class GroceryListPage {
    var groceryList: seq<GroceryItem>
    var preferences: ShoppingPreferences

    /** Quantities are never negative: they start positive and every change is floored at zero. */
    ghost predicate Valid()
      reads this
    {
      AllNonNegative(groceryList)
    }

    constructor ()
      ensures Valid()
      ensures groceryList == InitialGroceryList && preferences == InitialPreferences
    {
      groceryList := InitialGroceryList;
      preferences := InitialPreferences;
    }

    /** `handleQuantityChange`: replace the list by its adjusted copy. */
    method HandleQuantityChange(id: string, change: int)
      requires Valid()
      modifies this`groceryList
      ensures Valid()
      ensures groceryList == QuantityChanged(old(groceryList), id, change)
    {
      groceryList := QuantityChanged(groceryList, id, change);
    }

    method SetOrganicOnly(checked: bool)
      modifies this`preferences
      ensures preferences == old(preferences).(organicOnly := checked)
    {
      preferences := preferences.(organicOnly := checked);
    }

    method SetPreferredBrands(value: string)
      modifies this`preferences
      ensures preferences == old(preferences).(preferredBrands := value)
    {
      preferences := preferences.(preferredBrands := value);
    }

    method SetSubstituteAllowed(checked: bool)
      modifies this`preferences
      ensures preferences == old(preferences).(substituteAllowed := checked)
    {
      preferences := preferences.(substituteAllowed := checked);
    }
  }
}

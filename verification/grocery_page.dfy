/** The grocery page (frontend/src/pages/GroceryPage.tsx): one list of items,
    shown as two views split by `inFridge`, with check toggling by id and a
    bulk clear of checked items. */
module GroceryPage {
  import opened Types
  import opened Lists

  predicate InFridge(item: GroceryItem) { item.inFridge }
  predicate ToBuy(item: GroceryItem) { !item.inFridge }
  predicate Unchecked(item: GroceryItem) { !item.checked }

  /** `groceryItems.filter(item => item.inFridge)`. */
  function FridgeItems(items: seq<GroceryItem>): (r: seq<GroceryItem>)
    ensures forall x :: x in r <==> x in items && x.inFridge
    ensures IsSubsequence(r, items)
  {
    FilterIsSubsequence(items, InFridge);
    Filter(items, InFridge)
  }

  /** `groceryItems.filter(item => !item.inFridge)`. */
  function ShoppingItems(items: seq<GroceryItem>): (r: seq<GroceryItem>)
    ensures forall x :: x in r <==> x in items && !x.inFridge
    ensures IsSubsequence(r, items)
  {
    FilterIsSubsequence(items, ToBuy);
    Filter(items, ToBuy)
  }

  /** The two views are disjoint and together hold every item exactly as
      often as the list does. */
  lemma ViewsPartition(items: seq<GroceryItem>)
    ensures multiset(FridgeItems(items)) + multiset(ShoppingItems(items)) == multiset(items)
    ensures |FridgeItems(items)| + |ShoppingItems(items)| == |items|
    ensures forall x :: !(x in FridgeItems(items) && x in ShoppingItems(items))
  {
    FilterPartition(items, InFridge, ToBuy);
  }

  /** The item after a click on its checkbox. */
  function Flipped(item: GroceryItem): GroceryItem {
    item.(checked := !item.checked)
  }

  /** The item a click on the checkbox of `id` leaves at a position. */
  function ToggledAt(item: GroceryItem, id: string): GroceryItem {
    if item.id == id then Flipped(item) else item
  }

  /** `items.map(item => item.id === id ? {...item, checked: !item.checked} : item)`. */
  function ToggleChecked(items: seq<GroceryItem>, id: string): (r: seq<GroceryItem>)
    ensures |r| == |items|
    ensures forall i :: 0 <= i < |r| ==> r[i] == ToggledAt(items[i], id)
    decreases |items|
  {
    if items == [] then []
    else
      var rest := ToggleChecked(items[1..], id);
      assert forall i :: 1 <= i < |items| ==> items[i] == items[1..][i - 1];
      [ToggledAt(items[0], id)] + rest
  }

  /** The same items in the same order, where exactly those with the given
      id have `checked` flipped and nothing else changes. */
  lemma ToggleCheckedFields(items: seq<GroceryItem>, id: string)
    ensures forall i :: 0 <= i < |items| ==>
      var r := ToggleChecked(items, id);
      r[i].id == items[i].id && r[i].name == items[i].name
      && r[i].category == items[i].category && r[i].inFridge == items[i].inFridge
      && (r[i].checked != items[i].checked <==> items[i].id == id)
  {
  }

  /** Toggling an id that no item carries changes nothing. */
  lemma {:induction false} ToggleUnknownId(items: seq<GroceryItem>, id: string)
    requires forall i :: 0 <= i < |items| ==> items[i].id != id
    ensures ToggleChecked(items, id) == items
  {
    var r := ToggleChecked(items, id);
    forall i | 0 <= i < |items| ensures r[i] == items[i] {
      assert r[i].checked == items[i].checked;
    }
  }

  /** Toggling the same id twice restores the list. */
  lemma {:induction false} ToggleTwice(items: seq<GroceryItem>, id: string)
    ensures ToggleChecked(ToggleChecked(items, id), id) == items
  {
    var r := ToggleChecked(ToggleChecked(items, id), id);
    forall i | 0 <= i < |items| ensures r[i] == items[i] {
      assert ToggleChecked(items, id)[i].id == items[i].id;
    }
  }

  /** `items.filter(item => !item.checked)`. */
  function ClearChecked(items: seq<GroceryItem>): (r: seq<GroceryItem>)
    ensures forall x :: x in r <==> x in items && !x.checked
    ensures IsSubsequence(r, items)
  {
    FilterIsSubsequence(items, Unchecked);
    Filter(items, Unchecked)
  }

  /** After a clear no item is checked, and a second clear changes nothing. */
  lemma ClearCheckedIdempotent(items: seq<GroceryItem>)
    ensures forall i :: 0 <= i < |ClearChecked(items)| ==> !ClearChecked(items)[i].checked
    ensures ClearChecked(ClearChecked(items)) == ClearChecked(items)
  {
    FilterIdempotent(items, Unchecked);
  }

  /** Clearing acts on both views: the fridge view after a clear is the old
      fridge view without its checked items, and likewise for shopping. */
  lemma ClearCheckedBothViews(items: seq<GroceryItem>)
    ensures FridgeItems(ClearChecked(items)) == ClearChecked(FridgeItems(items))
    ensures ShoppingItems(ClearChecked(items)) == ClearChecked(ShoppingItems(items))
  {
    FilterCommute(items, Unchecked, InFridge);
    FilterCommute(items, Unchecked, ToBuy);
  }

  /** The page's item list. */
  class Page {
    var groceryItems: seq<GroceryItem>

    function FridgeView(): seq<GroceryItem>
      reads this
    {
      FridgeItems(groceryItems)
    }

    function ShoppingView(): seq<GroceryItem>
      reads this
    {
      ShoppingItems(groceryItems)
    }

    constructor (initial: seq<GroceryItem>)
      ensures groceryItems == initial
    {
      groceryItems := initial;
    }

    /** `handleToggleItem`. */
    method ToggleItem(id: string)
      modifies this
      ensures groceryItems == ToggleChecked(old(groceryItems), id)
    {
      groceryItems := ToggleChecked(groceryItems, id);
    }

    /** `handleClearChecked`: every checked item goes, from either view. */
    method ClearCheckedItems()
      modifies this
      ensures groceryItems == ClearChecked(old(groceryItems))
      ensures FridgeView() == ClearChecked(FridgeItems(old(groceryItems)))
      ensures ShoppingView() == ClearChecked(ShoppingItems(old(groceryItems)))
    {
      ClearCheckedBothViews(groceryItems);
      groceryItems := ClearChecked(groceryItems);
    }
  }
}

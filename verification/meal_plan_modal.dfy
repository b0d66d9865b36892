/** The add/edit meal dialog (frontend/src/components/planner/MealPlanModal.tsx):
    the chosen meal type and recipe as component state, the guarded save that
    calls `onSave` and then `onClose`, and what the dialog shows. The two
    callbacks are returned as the list of calls a handler makes. */
module MealPlanModal {
  import opened Types
  import opened Db

  /** A call of one of the dialog's callbacks. */
  datatype Call = Save(day: string, kind: MealKind, recipe: StoredRecipe) | Close

  /** The string a meal type has in the props and in `onSave`. */
  function KindName(k: MealKind): string {
    match k
    case Breakfast => "breakfast"
    case Lunch => "lunch"
    case Dinner => "dinner"
    case Snack => "snack"
  }

  /** ASCII upper-casing of one character, as `toUpperCase` does for these. */
  function Upper(c: char): char {
    if 'a' <= c <= 'z' then (c as int - 'a' as int + 'A' as int) as char else c
  }

  /** `type.charAt(0).toUpperCase() + type.slice(1)`: the caption of a type's
      button. */
  function KindCaption(k: MealKind): (caption: string)
    ensures |caption| == |KindName(k)|
    ensures caption[0] == Upper(KindName(k)[0]) && 'A' <= caption[0] <= 'Z'
    ensures caption[1..] == KindName(k)[1..]
  {
    var name := KindName(k);
    [Upper(name[0])] + name[1..]
  }

  /** The four buttons in the order they are shown. */
  const KINDS: seq<MealKind> := [Breakfast, Lunch, Dinner, Snack]

  /** Every meal type has a button, and the four captions differ. */
  lemma KindButtons(a: MealKind, b: MealKind)
    ensures a in KINDS
    ensures KindCaption(a) == KindCaption(b) ==> a == b
  {
    if KindCaption(a) == KindCaption(b) {
      assert KindCaption(a)[1..] == KindCaption(b)[1..];
    }
  }

  /** What the open dialog shows. */
  datatype View = View(title: string, saveCaption: string, saveDisabled: bool, highlighted: MealKind)

  class Modal {
    const isOpen: bool
    const day: string
    const mealType: Option<MealKind>
    const currentRecipe: Option<StoredRecipe>
    var selectedType: MealKind
    var selectedRecipe: Option<StoredRecipe>
    var searchQuery: string

    /** The initial state: `mealType || 'lunch'` and `currentRecipe || null`. */
    constructor (isOpen: bool, day: string, mealType: Option<MealKind>, currentRecipe: Option<StoredRecipe>)
      ensures this.isOpen == isOpen && this.day == day
      ensures this.mealType == mealType && this.currentRecipe == currentRecipe
      ensures mealType.Some? ==> selectedType == mealType.value
      ensures mealType.None? ==> selectedType == Lunch
      ensures selectedRecipe == currentRecipe
      ensures searchQuery == ""
    {
      this.isOpen := isOpen;
      this.day := day;
      this.mealType := mealType;
      this.currentRecipe := currentRecipe;
      selectedType := if mealType.Some? then mealType.value else Lunch;
      selectedRecipe := currentRecipe;
      searchQuery := "";
    }

    /** A click on a meal-type button. */
    method SelectType(kind: MealKind)
      modifies this
      ensures selectedType == kind
      ensures selectedRecipe == old(selectedRecipe) && searchQuery == old(searchQuery)
    {
      selectedType := kind;
    }

    /** A click on a recipe of the result list. */
    method SelectRecipe(recipe: StoredRecipe)
      modifies this
      ensures selectedRecipe == Some(recipe)
      ensures selectedType == old(selectedType) && searchQuery == old(searchQuery)
    {
      selectedRecipe := Some(recipe);
    }

    /** An edit of the search field. */
    method SearchChange(query: string)
      modifies this
      ensures searchQuery == query
      ensures selectedType == old(selectedType) && selectedRecipe == old(selectedRecipe)
    {
      searchQuery := query;
    }

    /** `handleSave`: with no recipe chosen nothing is called; otherwise one
        `onSave` with the day, the chosen type and the chosen recipe, then
        `onClose`. The dialog's own state does not change. */
    method HandleSave() returns (calls: seq<Call>)
      ensures selectedRecipe.None? ==> calls == []
      ensures selectedRecipe.Some? ==>
        calls == [Save(day, selectedType, selectedRecipe.value), Close]
      ensures calls == [] <==> SaveDisabled()
    {
      if selectedRecipe.Some? {
        calls := [Save(day, selectedType, selectedRecipe.value)];
        calls := calls + [Close];
      } else {
        calls := [];
      }
    }

    /** The close icon and the Cancel button both call `onClose` only. */
    method HandleClose() returns (calls: seq<Call>)
      ensures calls == [Close]
    {
      calls := [Close];
    }

    /** `disabled={!selectedRecipe}`. */
    predicate SaveDisabled()
      reads this
    {
      selectedRecipe.None?
    }

    /** Nothing while closed; else the title and the save caption follow
        whether a recipe was passed in, and the chosen type is highlighted. */
    function Render(): (r: Option<View>)
      reads this
      ensures r.None? <==> !isOpen
      ensures r.Some? ==> (r.value.title == "Edit Meal" <==> currentRecipe.Some?)
      ensures r.Some? ==> (r.value.title == "Add Meal" <==> currentRecipe.None?)
      ensures r.Some? ==> (r.value.saveCaption == "Update Meal" <==> currentRecipe.Some?)
      ensures r.Some? ==> (r.value.saveCaption == "Add Meal" <==> currentRecipe.None?)
      ensures r.Some? ==> (r.value.saveDisabled <==> selectedRecipe.None?)
      ensures r.Some? ==> r.value.highlighted == selectedType
    {
      if !isOpen then None
      else
        var edit := currentRecipe.Some?;
        Some(View(if edit then "Edit Meal" else "Add Meal",
                  if edit then "Update Meal" else "Add Meal",
                  SaveDisabled(), selectedType))
    }
  }
}

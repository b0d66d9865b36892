/** Manual fridge-ingredient entry
    (frontend/src/components/fridge/ManualIngredientInput.tsx): a
    duplicate-free list of names, a text field and an inline error message.
    Each handler returns the list it hands to `onIngredientsAdded`, or None
    when that callback is not called. */
module ManualIngredientInput {
  import opened Types
  import opened Lists
  import opened Text

  const EMPTY_ERROR: string := "Please enter an ingredient"
  const DUPLICATE_ERROR: string := "This ingredient is already added"

  /** The suggestion chips offered under the text field. */
  const SUGGESTED: seq<string> :=
    ["Apples", "Broccoli", "Carrots", "Eggs", "Milk", "Chicken", "Rice", "Potatoes"]

  class IngredientInput {
    var ingredients: seq<string>
    var currentIngredient: string
    var error: string
    /** Whether the parent passed `onIngredientsAdded`. */
    const notify: bool

    /** What the callback receives for a new list. */
    function Emit(list: seq<string>): Option<seq<string>>
      reads this
    {
      if notify then Some(list) else None
    }

    /** The list starts as the parent's `existingIngredients`, the field and
        the error empty. */
    constructor (existingIngredients: seq<string>, notify: bool)
      ensures ingredients == existingIngredients
      ensures currentIngredient == "" && error == ""
      ensures this.notify == notify
    {
      ingredients := existingIngredients;
      currentIngredient := "";
      error := "";
      this.notify := notify;
    }

    /** `handleInputChange`: any edit of the field clears a pending error. */
    method InputChange(value: string)
      modifies this
      ensures currentIngredient == value && error == ""
      ensures ingredients == old(ingredients)
    {
      currentIngredient := value;
      if error != "" {
        error := "";
      }
    }

    /** `addIngredient`: reject blank input, then a duplicate of the trimmed
        value; otherwise append the trimmed value, clear the field and emit. */
    method AddIngredient() returns (emitted: Option<seq<string>>)
      modifies this
      ensures Trim(old(currentIngredient)) == [] ==>
        error == EMPTY_ERROR && emitted == None
        && ingredients == old(ingredients) && currentIngredient == old(currentIngredient)
      ensures Trim(old(currentIngredient)) != [] && Trim(old(currentIngredient)) in old(ingredients) ==>
        error == DUPLICATE_ERROR && emitted == None
        && ingredients == old(ingredients) && currentIngredient == old(currentIngredient)
      ensures Trim(old(currentIngredient)) != [] && Trim(old(currentIngredient)) !in old(ingredients) ==>
        ingredients == old(ingredients) + [Trim(old(currentIngredient))]
        && currentIngredient == "" && error == old(error) && emitted == Emit(ingredients)
      ensures NoDups(old(ingredients)) ==> NoDups(ingredients)
    {
      var trimmed := Trim(currentIngredient);
      if trimmed == [] {
        error := EMPTY_ERROR;
        return None;
      }
      if trimmed in ingredients {
        error := DUPLICATE_ERROR;
        return None;
      }
      if NoDups(ingredients) {
        AppendNoDups(ingredients, trimmed);
      }
      ingredients := ingredients + [trimmed];
      currentIngredient := "";
      emitted := Emit(ingredients);
    }

    /** `handleKeyDown`: Enter submits the field; other keys do nothing. */
    method KeyDown(key: string) returns (emitted: Option<seq<string>>)
      modifies this
      ensures key != "Enter" ==>
        emitted == None && ingredients == old(ingredients)
        && currentIngredient == old(currentIngredient) && error == old(error)
      ensures key == "Enter" && Trim(old(currentIngredient)) == [] ==>
        error == EMPTY_ERROR && emitted == None
        && ingredients == old(ingredients) && currentIngredient == old(currentIngredient)
      ensures key == "Enter" && Trim(old(currentIngredient)) != [] && Trim(old(currentIngredient)) in old(ingredients) ==>
        error == DUPLICATE_ERROR && emitted == None
        && ingredients == old(ingredients) && currentIngredient == old(currentIngredient)
      ensures key == "Enter" && Trim(old(currentIngredient)) != [] && Trim(old(currentIngredient)) !in old(ingredients) ==>
        ingredients == old(ingredients) + [Trim(old(currentIngredient))]
        && currentIngredient == "" && error == old(error) && emitted == Emit(ingredients)
      ensures NoDups(old(ingredients)) ==> NoDups(ingredients)
    {
      if key == "Enter" {
        emitted := AddIngredient();
      } else {
        emitted := None;
      }
    }

    /** `addSuggestedIngredient`: the same duplicate check, on the name as
        given (no trimming), and the text field is never touched. */
    method AddSuggested(name: string) returns (emitted: Option<seq<string>>)
      modifies this
      ensures currentIngredient == old(currentIngredient)
      ensures name in old(ingredients) ==>
        error == DUPLICATE_ERROR && emitted == None && ingredients == old(ingredients)
      ensures name !in old(ingredients) ==>
        ingredients == old(ingredients) + [name] && error == old(error)
        && emitted == Emit(ingredients)
      ensures NoDups(old(ingredients)) ==> NoDups(ingredients)
    {
      if name in ingredients {
        error := DUPLICATE_ERROR;
        return None;
      }
      if NoDups(ingredients) {
        AppendNoDups(ingredients, name);
      }
      ingredients := ingredients + [name];
      emitted := Emit(ingredients);
    }

    /** A click on suggestion chip `index`: a chip whose name is already in
        the list is disabled and does nothing; any other chip adds its name. */
    method ClickSuggestion(index: nat) returns (emitted: Option<seq<string>>)
      requires index < |SUGGESTED|
      modifies this
      ensures SUGGESTED[index] in old(ingredients) ==>
        emitted == None && ingredients == old(ingredients)
        && currentIngredient == old(currentIngredient) && error == old(error)
      ensures SUGGESTED[index] !in old(ingredients) ==>
        ingredients == old(ingredients) + [SUGGESTED[index]]
        && currentIngredient == old(currentIngredient) && error == old(error)
        && emitted == Emit(ingredients)
      ensures NoDups(old(ingredients)) ==> NoDups(ingredients)
    {
      var name := SUGGESTED[index];
      if name in ingredients {
        emitted := None;
      } else {
        emitted := AddSuggested(name);
      }
    }

    /** `removeIngredient`: drop every entry equal to `name`, keep the rest in
        order, and emit; removing an absent name leaves the list equal. */
    method RemoveIngredient(name: string) returns (emitted: Option<seq<string>>)
      modifies this
      ensures ingredients == RemoveAll(old(ingredients), name)
      ensures name !in old(ingredients) ==> ingredients == old(ingredients)
      ensures IsSubsequence(ingredients, old(ingredients))
      ensures NoDups(old(ingredients)) ==> NoDups(ingredients)
      ensures currentIngredient == old(currentIngredient) && error == old(error)
      ensures emitted == Emit(ingredients)
    {
      if name !in ingredients {
        RemoveAbsent(ingredients, name);
      }
      if NoDups(ingredients) {
        RemoveAllNoDups(ingredients, name);
      }
      RemoveAllIsSubsequence(ingredients, name);
      ingredients := RemoveAll(ingredients, name);
      emitted := Emit(ingredients);
    }
  }
}

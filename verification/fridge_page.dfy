/** The fridge page (frontend/src/pages/FridgePage.tsx): the current
    ingredient list, replaced wholesale by whichever child reports one, and
    the photo/manual tab switch. */
module FridgePage {
  import opened Types
  import ManualIngredientInput

  /** The two tabs; no other value can be selected. */
  datatype Tab = Photo | Manual

  /** Where the generate button leads. */
  const MEALS_PATH: string := "/meals"

  class Page {
    var ingredients: seq<string>
    var activeTab: Tab

    /** The list starts empty, on the photo tab. */
    constructor ()
      ensures ingredients == [] && activeTab == Photo
    {
      ingredients := [];
      activeTab := Photo;
    }

    /** `handleIngredientsDetected`: the detected list replaces the current one. */
    method IngredientsDetected(detected: seq<string>)
      modifies this
      ensures ingredients == detected && activeTab == old(activeTab)
    {
      ingredients := detected;
    }

    /** `handleIngredientsAdded`: the manual list replaces the current one. */
    method IngredientsAdded(added: seq<string>)
      modifies this
      ensures ingredients == added && activeTab == old(activeTab)
    {
      ingredients := added;
    }

    /** The two tab buttons. */
    method SelectTab(tab: Tab)
      modifies this
      ensures activeTab == tab && ingredients == old(ingredients)
    {
      activeTab := tab;
    }

    /** The generate button is disabled exactly when the list is empty. */
    predicate GenerateDisabled()
      reads this
    {
      |ingredients| == 0
    }

    /** A click on the generate button: `handleGenerateMeals` goes to the meal
        ideas, and a disabled button does not fire at all. */
    method ClickGenerate() returns (navigation: Option<string>)
      ensures navigation == Some(MEALS_PATH) <==> ingredients != []
      ensures navigation != Some(MEALS_PATH) ==> navigation == None
    {
      if GenerateDisabled() {
        navigation := None;
      } else {
        navigation := Some(MEALS_PATH);
      }
    }

    /** The manual tab mounts a manual input seeded with the current list and
        wired to `handleIngredientsAdded`. */
    method OpenManualInput() returns (input: ManualIngredientInput.IngredientInput)
      requires activeTab == Manual
      ensures fresh(input)
      ensures input.ingredients == ingredients && input.notify
      ensures input.currentIngredient == "" && input.error == ""
    {
      input := new ManualIngredientInput.IngredientInput(ingredients, true);
    }
  }
}

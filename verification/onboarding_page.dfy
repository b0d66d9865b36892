/** The three-step onboarding wizard (frontend/src/pages/OnboardingPage.tsx):
    a step counter kept within 1..3 and the same preference edits as the
    settings form. Navigation and the `localStorage` write are returned as
    effects. */
module OnboardingPage {
  import opened Types
  import opened Lists
  import opened PreferenceEdits

  const LAST_STEP: int := 3
  const DASHBOARD_PATH: string := "/dashboard"
  const HOME_PATH: string := "/"

  /** What a step button does besides changing the step. */
  datatype Effect =
    | NoEffect
    | Navigate(path: string)
    /** `localStorage.setItem('userPreferences', ...)`, then navigation. */
    | SaveAndNavigate(saved: Preferences, path: string)

  class Wizard {
    var step: int
    var diet: DietaryPreference
    var allergies: seq<Allergy>
    var dislikedIngredients: seq<string>
    var newDisliked: string

    predicate Valid()
      reads this
    {
      1 <= step <= LAST_STEP
    }

    function Current(): Preferences
      reads this
    {
      Preferences(diet, allergies, dislikedIngredients)
    }

    /** Step 1, an omnivore diet, nothing listed. */
    constructor ()
      ensures Valid()
      ensures step == 1 && Current() == Preferences(Omnivore, [], []) && newDisliked == ""
    {
      step := 1;
      diet := Omnivore;
      allergies, dislikedIngredients := [], [];
      newDisliked := "";
    }

    /** `nextStep`: forward while before the last step; on the last step the
        preferences are saved and the dashboard opens, the step unchanged. */
    method NextStep() returns (effect: Effect)
      requires Valid()
      modifies this
      ensures Valid()
      ensures old(step) < LAST_STEP ==> step == old(step) + 1 && effect == NoEffect
      ensures old(step) == LAST_STEP ==>
        step == old(step) && effect == SaveAndNavigate(Current(), DASHBOARD_PATH)
      ensures Current() == old(Current()) && newDisliked == old(newDisliked)
    {
      if step < LAST_STEP {
        step := step + 1;
        effect := NoEffect;
      } else {
        effect := SaveAndNavigate(Preferences(diet, allergies, dislikedIngredients), DASHBOARD_PATH);
      }
    }

    /** `prevStep`: back while after the first step; on the first step the
        landing page opens. */
    method PrevStep() returns (effect: Effect)
      requires Valid()
      modifies this
      ensures Valid()
      ensures old(step) > 1 ==> step == old(step) - 1 && effect == NoEffect
      ensures old(step) == 1 ==> step == 1 && effect == Navigate(HOME_PATH)
      ensures Current() == old(Current()) && newDisliked == old(newDisliked)
    {
      if step > 1 {
        step := step - 1;
        effect := NoEffect;
      } else {
        effect := Navigate(HOME_PATH);
      }
    }

    /** The label of the forward button. */
    function ButtonLabel(): (caption: string)
      reads this
      ensures caption == "Continue" <==> step < LAST_STEP
      ensures caption != "Continue" ==> caption == "Save and Continue"
    {
      if step < LAST_STEP then "Continue" else "Save and Continue"
    }

    method DietChange(value: DietaryPreference)
      modifies this
      ensures diet == value && step == old(step)
      ensures allergies == old(allergies) && dislikedIngredients == old(dislikedIngredients)
      ensures newDisliked == old(newDisliked)
    {
      diet := value;
    }

    /** `handleAllergyToggle`, the same rule as the settings form. */
    method AllergyToggle(allergy: Allergy)
      modifies this
      ensures allergies == Toggle(old(allergies), allergy)
      ensures allergy in allergies <==> allergy !in old(allergies)
      ensures NoDups(old(allergies)) ==> NoDups(allergies)
      ensures step == old(step) && diet == old(diet)
      ensures dislikedIngredients == old(dislikedIngredients) && newDisliked == old(newDisliked)
    {
      if NoDups(allergies) {
        ToggleNoDups(allergies, allergy);
      }
      allergies := Toggle(allergies, allergy);
    }

    method InputChange(value: string)
      modifies this
      ensures newDisliked == value && step == old(step) && Current() == old(Current())
    {
      newDisliked := value;
    }

    /** `handleAddDisliked`, the same silent trimmed append as the settings form. */
    method AddDislikedIngredient()
      modifies this
      ensures Disliked(dislikedIngredients, newDisliked)
        == AddDisliked(old(dislikedIngredients), old(newDisliked))
      ensures NoDups(old(dislikedIngredients)) ==> NoDups(dislikedIngredients)
      ensures step == old(step) && diet == old(diet) && allergies == old(allergies)
    {
      var r := AddDisliked(dislikedIngredients, newDisliked);
      dislikedIngredients, newDisliked := r.list, r.input;
    }

    method RemoveDisliked(ingredient: string)
      modifies this
      ensures dislikedIngredients == RemoveAll(old(dislikedIngredients), ingredient)
      ensures step == old(step) && diet == old(diet) && allergies == old(allergies)
      ensures newDisliked == old(newDisliked)
    {
      dislikedIngredients := RemoveAll(dislikedIngredients, ingredient);
    }

    method KeyDown(key: string)
      modifies this
      ensures key == "Enter" ==>
        Disliked(dislikedIngredients, newDisliked) == AddDisliked(old(dislikedIngredients), old(newDisliked))
      ensures key != "Enter" ==>
        dislikedIngredients == old(dislikedIngredients) && newDisliked == old(newDisliked)
      ensures step == old(step) && diet == old(diet) && allergies == old(allergies)
    {
      if key == "Enter" {
        AddDislikedIngredient();
      }
    }
  }

  /** Pressing the forward button three times from a fresh wizard passes
      through steps 2 and 3 and then saves the untouched defaults. */
  method ForwardThrough() returns (effects: seq<Effect>)
    ensures effects == [NoEffect, NoEffect, SaveAndNavigate(Preferences(Omnivore, [], []), DASHBOARD_PATH)]
  {
    var w := new Wizard();
    var e1 := w.NextStep();
    var e2 := w.NextStep();
    var e3 := w.NextStep();
    effects := [e1, e2, e3];
  }
}

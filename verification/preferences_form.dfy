/** The settings form for a signed-in user's preferences
    (frontend/src/components/settings/PreferencesForm.tsx): local copies of
    the three preference fields, edited by the handlers and handed back on
    submit. */
module PreferencesForm {
  import opened Types
  import opened Lists
  import opened PreferenceEdits

  class Form {
    /** The user the form was opened for. */
    const user: User
    var diet: DietaryPreference
    var allergies: seq<Allergy>
    var dislikedIngredients: seq<string>
    var newDisliked: string

    /** The fields the submit hands back, as one record. */
    function Current(): Preferences
      reads this
    {
      Preferences(diet, allergies, dislikedIngredients)
    }

    /** Each field starts as the user's stored preference; the text field is empty. */
    constructor (user: User)
      ensures this.user == user
      ensures Current() == user.preferences
      ensures newDisliked == ""
    {
      this.user := user;
      diet := user.preferences.diet;
      allergies := user.preferences.allergies;
      dislikedIngredients := user.preferences.dislikedIngredients;
      newDisliked := "";
    }

    /** `handleDietChange`: the diet becomes the selected option. */
    method DietChange(value: DietaryPreference)
      modifies this
      ensures Current() == old(Current()).(diet := value)
      ensures newDisliked == old(newDisliked)
    {
      diet := value;
    }

    /** `handleAllergyToggle`: a listed allergy is removed everywhere, an
        unlisted one appended. */
    method AllergyToggle(allergy: Allergy)
      modifies this
      ensures allergies == Toggle(old(allergies), allergy)
      ensures allergy in allergies <==> allergy !in old(allergies)
      ensures NoDups(old(allergies)) ==> NoDups(allergies)
      ensures diet == old(diet) && dislikedIngredients == old(dislikedIngredients)
      ensures newDisliked == old(newDisliked)
    {
      if NoDups(allergies) {
        ToggleNoDups(allergies, allergy);
      }
      allergies := Toggle(allergies, allergy);
    }

    /** The text field's `onChange`. */
    method InputChange(value: string)
      modifies this
      ensures newDisliked == value && Current() == old(Current())
    {
      newDisliked := value;
    }

    /** `handleAddDisliked`. */
    method AddDislikedIngredient()
      modifies this
      ensures Disliked(dislikedIngredients, newDisliked)
        == AddDisliked(old(dislikedIngredients), old(newDisliked))
      ensures NoDups(old(dislikedIngredients)) ==> NoDups(dislikedIngredients)
      ensures diet == old(diet) && allergies == old(allergies)
    {
      var r := AddDisliked(dislikedIngredients, newDisliked);
      dislikedIngredients, newDisliked := r.list, r.input;
    }

    /** `handleRemoveDisliked`: every equal entry goes, the rest keep their order. */
    method RemoveDisliked(ingredient: string)
      modifies this
      ensures dislikedIngredients == RemoveAll(old(dislikedIngredients), ingredient)
      ensures IsSubsequence(dislikedIngredients, old(dislikedIngredients))
      ensures diet == old(diet) && allergies == old(allergies)
      ensures newDisliked == old(newDisliked)
    {
      RemoveAllIsSubsequence(dislikedIngredients, ingredient);
      dislikedIngredients := RemoveAll(dislikedIngredients, ingredient);
    }

    /** `handleKeyDown`: Enter adds the typed name; other keys change nothing. */
    method KeyDown(key: string)
      modifies this
      ensures key == "Enter" ==>
        Disliked(dislikedIngredients, newDisliked) == AddDisliked(old(dislikedIngredients), old(newDisliked))
      ensures key != "Enter" ==>
        dislikedIngredients == old(dislikedIngredients) && newDisliked == old(newDisliked)
      ensures diet == old(diet) && allergies == old(allergies)
    {
      if key == "Enter" {
        AddDislikedIngredient();
      }
    }

    /** `handleSubmit`: the user handed to `onSave` is the form's user with
        its preferences replaced by the three fields; id, name and email are
        the same. */
    method Submit() returns (updated: User)
      ensures updated.id == user.id && updated.name == user.name && updated.email == user.email
      ensures updated.preferences == Current()
      ensures updated == user.(preferences := Current())
    {
      updated := user.(preferences := Preferences(diet, allergies, dislikedIngredients));
    }

    /** Submitting an untouched form hands back the very same user. */
    method SubmitUntouched() returns (updated: User)
      requires Current() == user.preferences
      ensures updated == user
    {
      updated := Submit();
    }
  }
}

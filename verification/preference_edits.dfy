/** The list edits the settings form and the onboarding page share
    (frontend/src/components/settings/PreferencesForm.tsx and
    frontend/src/pages/OnboardingPage.tsx carry the same handlers): allergy
    toggling is `Lists.Toggle`, removal is `Lists.RemoveAll`, and adding a
    disliked ingredient is the silent, trimmed append below. */
module PreferenceEdits {
  import opened Lists
  import opened Text

  /** The disliked list and the text field after `handleAddDisliked`. */
  datatype Disliked = Disliked(list: seq<string>, input: string)

  /** `handleAddDisliked`: the trimmed text is appended, and the field
      cleared, iff it is non-empty and not yet listed; otherwise nothing
      changes and no error is shown. */
  function AddDisliked(list: seq<string>, input: string): (r: Disliked)
    ensures r.list != list <==> Trim(input) != [] && Trim(input) !in list
    ensures r.list != list ==> r.list == list + [Trim(input)] && r.input == ""
    ensures r.list == list ==> r.input == input
    ensures NoDups(list) ==> NoDups(r.list)
  {
    var t := Trim(input);
    if t != [] && t !in list then
      if NoDups(list) then
        AppendNoDups(list, t);
        Disliked(list + [t], "")
      else Disliked(list + [t], "")
    else Disliked(list, input)
  }

  /** After any add attempt the trimmed text is listed or blank: typing the
      same text again and adding it changes nothing. */
  lemma AddDislikedAgain(list: seq<string>, input: string)
    ensures var r := AddDisliked(list, input);
      Trim(input) == [] || Trim(input) in r.list
    ensures AddDisliked(AddDisliked(list, input).list, input).list == AddDisliked(list, input).list
  {
    var r := AddDisliked(list, input);
    if Trim(input) != [] && Trim(input) !in list {
      assert r.list[|list|] == Trim(input);
    }
  }

  /** Removing a name that was just added restores the list. */
  lemma AddThenRemove(list: seq<string>, input: string)
    requires Trim(input) != [] && Trim(input) !in list
    ensures RemoveAll(AddDisliked(list, input).list, Trim(input)) == list
  {
    RemoveAppended(list, Trim(input));
  }
}

# MealMuse in Dafny

MealMuse is a meal-planning web application. Users enter what is in their
fridge, by a (mocked) photo analysis or by typing. They browse and filter
recipes, keep a weekly meal plan and check off a grocery list, which is split
into what is already in the fridge and what is still to buy. A small Python
back end checks bearer tokens and accepts inventory uploads.

This project models the logic of the application's pages, components, data
helpers and two back-end routes, and proves what each one promises:

- **Fridge capture.** The manual ingredient input (trimmed, duplicate-free
  appends, removals, error messages) and the photo uploader (drag
  highlighting, the upload flag, the fixed detected list). The fridge page
  replaces its list with whatever either child reports.
- **Recipe browsing.** The recipe filter (difficulty, time buckets, diet
  tags, toggled one value at a time) and the recipe card (main-ingredient
  summary, tag badges, difficulty style, optional callbacks). The
  dashboard's derived values: greeting, today's meals, recently added items,
  suggestion cards and in-fridge counts.
- **Planning.** Week navigation on `YYYY-MM-DD` strings, the full-date of
  section 5.6 of RFC 3339, over a proleptic Gregorian calendar. Per-day meal
  lookup, and the add/edit meal dialog with its guarded save.
- **Grocery list.** The in-fridge/to-buy partition, toggling by id, clearing
  checked items, grouping by category, and the plain-text copy. For the copy,
  splitting the text back into lines yields the title, the headers and one
  line per item.
- **Preferences.** The settings form and the three-step onboarding wizard:
  allergy toggling, silent trimmed appends of disliked ingredients, and the
  step counter kept within 1..3.
- **Data helpers.** The merge and `Map`-based deduplication of per-tag recipe
  queries (first position, last value), the `slice(0, limit)` of recent plans,
  and the shaping of a new grocery list document.
- **Back end.** `get_user_id`: the "Bearer " prefix check and the token found
  after the last "Bearer ", a partial take on section 2.1 of RFC 6750.
  `upload_inventory`: a non-empty name list wins, else a file yields the
  placeholder list, else the result is empty.

Each source file's form is kept:

- Handlers that update component state become classes. Each has fields for
  the state, `modifies` clauses, and `ensures` that give the whole new state.
- Pure selectors and formatters become functions. Each is paired with an
  independent reference definition, an inverse or an invariant, and a lemma
  connects the two.
- The two loops in the source are methods with their invariants: the
  per-tag query loop of `getRecipesByTags`, and the `reduce` that groups
  grocery items by category (`GroceryList.tsx:24-31`).

The following are parameters or returned values:

- A callback's invocation is a returned value: `Option`, an effect, or a list
  of calls.
- Navigation and `localStorage` writes are returned effects.
- Query results, fresh ids, the clock and token verification are parameters.

Two behaviours of the code look unintended and are modelled as written:

- Clearing checked grocery items removes them from both views
  (`GroceryPage.tsx:23-27`), not only from the to-buy list.
- Selecting several time buckets combines them with AND
  (`MealsPage.tsx:67-76`), so any two distinct buckets select nothing.

## Model

| member | source | states |
|---|---|---|
| Lists.Filter | frontend/src/pages/GroceryPage.tsx:12-13 | `filter` keeps exactly the elements satisfying the test and never lengthens the list |
| Lists.FilterIsSubsequence | frontend/src/pages/MealsPage.tsx:60-84 | a filter's result is a subsequence of its input (order kept) |
| Lists.FilterAll | frontend/src/pages/MealsPage.tsx:60-84 | filtering with a test every element passes returns the list itself |
| Lists.FilterIdempotent | frontend/src/pages/GroceryPage.tsx:23-27 | filtering twice with one test is filtering once |
| Lists.FilterPartition | frontend/src/pages/GroceryPage.tsx:12-13 | filters by a test and its negation split the list's multiset and length |
| Lists.FilterCommute | frontend/src/pages/GroceryPage.tsx:12-27 | two filters commute |
| Lists.FilterAppend | frontend/src/pages/GroceryPage.tsx:12-13 | a filter distributes over concatenation |
| Lists.FilterNoDups | frontend/src/components/fridge/ManualIngredientInput.tsx:58 | filtering a duplicate-free list keeps it duplicate-free |
| Lists.RemoveAll | frontend/src/components/fridge/ManualIngredientInput.tsx:58 | `filter(item => item !== x)` drops every copy of x and keeps every other value present |
| Lists.RemoveAbsent | frontend/src/components/fridge/ManualIngredientInput.tsx:57-64 | removing an absent value leaves the list equal |
| Lists.RemoveAllNoDups | frontend/src/components/fridge/ManualIngredientInput.tsx:57-64 | removal keeps a list duplicate-free |
| Lists.RemoveAllIsSubsequence | frontend/src/components/fridge/ManualIngredientInput.tsx:57-64 | removal keeps the other entries in order |
| Lists.Toggle | frontend/src/pages/MealsPage.tsx:31-35 | toggling flips the value's membership, keeps all other memberships, and appends an absent value at the end |
| Lists.ToggleTwiceMembership | frontend/src/pages/MealsPage.tsx:31-35 | toggling a value twice restores every membership |
| Lists.ToggleTwiceAbsent | frontend/src/pages/MealsPage.tsx:31-35 | toggling an absent value twice restores the very list |
| Lists.RemoveAppended | frontend/src/components/settings/PreferencesForm.tsx:38-44 | removing a value just appended to a list without it restores the list |
| Lists.ToggleNoDups | frontend/src/components/settings/PreferencesForm.tsx:38-44 | toggling keeps a list duplicate-free |
| Lists.AppendNoDups | frontend/src/components/fridge/ManualIngredientInput.tsx:36-41 | appending an absent value keeps a list duplicate-free |
| Lists.FilterSnoc | frontend/src/components/grocery/GroceryList.tsx:24-30 | filtering a list with one more element at the end adds that element iff it passes |
| Lists.Take | frontend/src/pages/DashboardPage.tsx:101 | `slice(0, n)` is the first min(n, length) elements |
| Lists.Split | frontend/src/components/grocery/GroceryList.tsx:38 | splitting on a character gives at least one piece and no piece holds the separator |
| Lists.SplitNoSeparator | frontend/src/components/grocery/GroceryList.tsx:38 | text without the separator is one piece |
| Lists.SplitConcat | frontend/src/components/grocery/GroceryList.tsx:38 | splitting distributes over one separator occurrence |
| Lists.SplitFirstLine | frontend/src/components/grocery/GroceryList.tsx:38 | a first line without the separator is the first piece |
| Lists.SplitJoinEach | frontend/src/components/grocery/GroceryList.tsx:38 | splitting joined text splits each part |
| Lists.SplitJoin | frontend/src/components/grocery/GroceryList.tsx:38 | `join('\n')` of parts without line breaks splits back into the parts ([""] for no parts) |
| Lists.Join | frontend/src/components/grocery/GroceryList.tsx:38 | `join(sep)`: the parts with the separator between neighbours; read back into the parts by Lists.SplitJoin |
| Text.LeadingSpace | frontend/src/components/fridge/ManualIngredientInput.tsx:31 | counts exactly the leading white space |
| Text.TrailingSpace | frontend/src/components/fridge/ManualIngredientInput.tsx:31 | counts exactly the trailing white space |
| Text.Trim | frontend/src/components/fridge/ManualIngredientInput.tsx:31 | `trim()` is a slice between white-space-only ends and neither starts nor ends with white space |
| Text.TrimEmptyIff | frontend/src/components/fridge/ManualIngredientInput.tsx:31 | trimming gives "" iff the input is all white space |
| Text.TrimIdempotent | frontend/src/components/fridge/ManualIngredientInput.tsx:36-41 | trimming twice is trimming once |
| Types.MealsOn | frontend/src/pages/PlannerPage.tsx:116 | `days.find(d => d.day === day)?.meals \|\| []`: the meals of the first matching day, [] when none matches |
| MealsPage.FilteredRecipes | frontend/src/pages/MealsPage.tsx:60-84 | the shown recipes are a subsequence of the catalog and are exactly those passing the filter |
| MealsPage.TimeRejects | frontend/src/pages/MealsPage.tsx:67-76 | the three bucket tests of the time filter as written; MealsPage.TimePassesIffInEveryBucket states their meaning (a recipe passes iff its time lies in every selected known bucket) |
| MealsPage.TimePassesIffInEveryBucket | frontend/src/pages/MealsPage.tsx:67-76 | a recipe passes the time test iff its total time lies in every selected known bucket; unknown strings exclude nothing |
| MealsPage.BucketsDisjoint | frontend/src/pages/MealsPage.tsx:70-72 | "< 15 min", "15-30 min" (inclusive) and "> 30 min" are pairwise disjoint |
| MealsPage.Keep | frontend/src/pages/MealsPage.tsx:60-84 | the `filter` callback, difficulty then time then diet; MealsPage.FilteredMembership states which recipes it keeps, dimension by dimension |
| MealsPage.FilteredMembership | frontend/src/pages/MealsPage.tsx:60-84 | membership dimension by dimension: OR within difficulty and diet, AND over time buckets, AND across dimensions |
| MealsPage.NoFiltersKeepsCatalog | frontend/src/pages/MealsPage.tsx:62-79 | with all three lists empty the result is the catalog |
| MealsPage.TwoBucketsEmpty | frontend/src/pages/MealsPage.tsx:67-76 | selecting two distinct buckets empties the result |
| MealsPage.BucketScenario | frontend/src/pages/MealsPage.tsx:70-72 | for recipes of 10, 25 and 40 minutes, "15-30 min" alone keeps only the 25-minute one |
| MealsPage.FilterState.Visible | frontend/src/pages/MealsPage.tsx:60-84 | the page shows a subsequence of the catalog |
| MealsPage.FilterState.constructor | frontend/src/pages/MealsPage.tsx:14-16 | all three filter lists start empty |
| MealsPage.FilterState.FilterChange | frontend/src/pages/MealsPage.tsx:28-52 | the chosen category's list is toggled and the other two are unchanged |
| MealsPage.FilterState.ClearFilters | frontend/src/pages/MealsPage.tsx:54-58 | all lists empty, so every recipe is visible |
| ManualIngredientInput.IngredientInput.constructor | frontend/src/components/fridge/ManualIngredientInput.tsx:13-19 | the list starts as `existingIngredients`, field and error empty |
| ManualIngredientInput.IngredientInput.InputChange | frontend/src/components/fridge/ManualIngredientInput.tsx:25-28 | the field takes the value and any error is cleared; the list is unchanged |
| ManualIngredientInput.IngredientInput.AddIngredient | frontend/src/components/fridge/ManualIngredientInput.tsx:30-48 | blank input: empty-error, nothing emitted; trimmed duplicate: duplicate-error, list and field unchanged; otherwise the trimmed value is appended, the field cleared and the new list emitted; duplicate-freedom kept |
| ManualIngredientInput.IngredientInput.KeyDown | frontend/src/components/fridge/ManualIngredientInput.tsx:50-55 | Enter has the three outcomes of `addIngredient` (empty-error, duplicate-error, or append, clear and emit); other keys change nothing; duplicate-freedom kept |
| ManualIngredientInput.IngredientInput.AddSuggested | frontend/src/components/fridge/ManualIngredientInput.tsx:66-78 | the same duplicate check without trimming, the field never touched, the new list emitted |
| ManualIngredientInput.IngredientInput.ClickSuggestion | frontend/src/components/fridge/ManualIngredientInput.tsx:108-113 | a chip of the fixed suggestion list adds its name and emits the list; the chip of a name already in the list is disabled and changes nothing; duplicate-freedom kept |
| ManualIngredientInput.IngredientInput.RemoveIngredient | frontend/src/components/fridge/ManualIngredientInput.tsx:57-64 | every equal entry dropped, the rest in order, an absent name changes nothing, the list emitted |
| FridgeUploader.Uploader.constructor | frontend/src/components/fridge/FridgeUploader.tsx:11-15 | no highlight, not uploading, no image, nothing detected |
| FridgeUploader.Uploader.HandleDrag | frontend/src/components/fridge/FridgeUploader.tsx:17-25 | enter/over raise the highlight, leave drops it, other types leave it; nothing else changes |
| FridgeUploader.Uploader.HandleFiles | frontend/src/components/fridge/FridgeUploader.tsx:43-63 | the upload flag goes on and one file read starts |
| FridgeUploader.Uploader.HandleDrop | frontend/src/components/fridge/FridgeUploader.tsx:27-34 | the highlight always goes off; files are processed only when one is present |
| FridgeUploader.Uploader.HandleChange | frontend/src/components/fridge/FridgeUploader.tsx:36-41 | files are processed only when one is present |
| FridgeUploader.Uploader.ReaderLoaded | frontend/src/components/fridge/FridgeUploader.tsx:48-61 | a non-empty result is shown and sets the detection timer; an empty one changes nothing else |
| FridgeUploader.Uploader.DetectionDone | frontend/src/components/fridge/FridgeUploader.tsx:52-59 | the fixed five names are shown and emitted and the upload flag goes off |
| FridgeUploader.Uploader.RemoveImage | frontend/src/components/fridge/FridgeUploader.tsx:66-72 | no image, no names, [] emitted |
| FridgeUploader.Uploader.RemoveIngredient | frontend/src/components/fridge/FridgeUploader.tsx:74-80 | every equal name dropped, the rest in order, the new list emitted |
| FridgePage.Page.constructor | frontend/src/pages/FridgePage.tsx:12-13 | empty list, photo tab |
| FridgePage.Page.IngredientsDetected | frontend/src/pages/FridgePage.tsx:15-17 | the detected list replaces the current one |
| FridgePage.Page.IngredientsAdded | frontend/src/pages/FridgePage.tsx:19-21 | the manual list replaces the current one |
| FridgePage.Page.SelectTab | frontend/src/pages/FridgePage.tsx:47-66 | the tab changes, the list does not |
| FridgePage.Page.GenerateDisabled | frontend/src/pages/FridgePage.tsx:86 | `disabled={ingredients.length === 0}`; FridgePage.Page.ClickGenerate states that the button navigates iff it is not disabled |
| FridgePage.Page.ClickGenerate | frontend/src/pages/FridgePage.tsx:82-90 | the button leads to "/meals" iff the list is non-empty, else does nothing |
| FridgePage.Page.OpenManualInput | frontend/src/pages/FridgePage.tsx:70-77 | the manual tab mounts an input seeded with the current list and wired to the page |
| GroceryPage.FridgeItems | frontend/src/pages/GroceryPage.tsx:12 | exactly the in-fridge items, in order |
| GroceryPage.ShoppingItems | frontend/src/pages/GroceryPage.tsx:13 | exactly the items not in the fridge, in order |
| GroceryPage.ViewsPartition | frontend/src/pages/GroceryPage.tsx:12-13 | the views are disjoint and together hold every item as often as the list does |
| GroceryPage.ToggleChecked | frontend/src/pages/GroceryPage.tsx:15-21 | same length, and each position holds its old item, flipped when it carries the id |
| GroceryPage.ToggleCheckedFields | frontend/src/pages/GroceryPage.tsx:15-21 | same items in the same order; exactly those with the id have `checked` flipped, every other field kept |
| GroceryPage.ToggleUnknownId | frontend/src/pages/GroceryPage.tsx:15-21 | toggling an id nobody has changes nothing |
| GroceryPage.ToggleTwice | frontend/src/pages/GroceryPage.tsx:15-21 | toggling an id twice restores the list |
| GroceryPage.ClearChecked | frontend/src/pages/GroceryPage.tsx:23-27 | exactly the unchecked items remain, in order |
| GroceryPage.ClearCheckedIdempotent | frontend/src/pages/GroceryPage.tsx:23-27 | after a clear nothing is checked and a second clear changes nothing |
| GroceryPage.ClearCheckedBothViews | frontend/src/pages/GroceryPage.tsx:12-27 | clearing removes checked items from both views |
| GroceryPage.Page.constructor | frontend/src/pages/GroceryPage.tsx:10 | the list starts as given |
| GroceryPage.Page.ToggleItem | frontend/src/pages/GroceryPage.tsx:15-21 | the list becomes its toggled form |
| GroceryPage.Page.ClearCheckedItems | frontend/src/pages/GroceryPage.tsx:23-27 | the list and each view lose their checked items |
| GroceryList.ItemsIn | frontend/src/components/grocery/GroceryList.tsx:23-31 | a category's group holds exactly the items of that category |
| GroceryList.Categories | frontend/src/components/grocery/GroceryList.tsx:23-31 | the keys: each present category once, nothing else |
| GroceryList.ItemsInSnoc | frontend/src/components/grocery/GroceryList.tsx:29 | one more item extends its own category's group only |
| GroceryList.CategoriesSnoc | frontend/src/components/grocery/GroceryList.tsx:26-28 | a new category is added at the end, an existing one stays |
| GroceryList.GroupStepSeen | frontend/src/components/grocery/GroceryList.tsx:24-30 | pushing an item of a known category keeps the key order and extends only that group |
| GroceryList.GroupStepNew | frontend/src/components/grocery/GroceryList.tsx:24-30 | an item of a new category appends its key and opens a group holding just the item |
| GroceryList.GroupByCategory | frontend/src/components/grocery/GroceryList.tsx:23-32 | the reduce yields keys in first-occurrence order, and each key's non-empty group of its items in order |
| GroceryList.TotalSizeSnocKey | frontend/src/components/grocery/GroceryList.tsx:23-31 | the size sum over one more key adds that key's group |
| GroceryList.TotalSizeSnocItem | frontend/src/components/grocery/GroceryList.tsx:23-31 | one more item raises the size sum by one iff its category is a key |
| GroceryList.GroupSizesSum | frontend/src/components/grocery/GroceryList.tsx:23-31 | the group sizes add up to the item count: each item lands in exactly one group |
| GroceryList.ItemLines | frontend/src/components/grocery/GroceryList.tsx:38 | one "- name" line per item, in order |
| GroceryList.SectionRoundTrip | frontend/src/components/grocery/GroceryList.tsx:38 | a section's text splits back into its lines |
| GroceryList.Layout | frontend/src/components/grocery/GroceryList.tsx:38 | the template of the copied text; GroceryList.SplitLayout states that it splits back into its seven lines |
| GroceryList.SplitLayout | frontend/src/components/grocery/GroceryList.tsx:38 | the template splits into title, blank, header, section, blank, header, section |
| GroceryList.SplitTail | frontend/src/components/grocery/GroceryList.tsx:38 | the tail of the template splits into a blank, its header and its section |
| GroceryList.SplitHead | frontend/src/components/grocery/GroceryList.tsx:38 | the head of the template splits into title, blank and header |
| GroceryList.ClipboardText | frontend/src/components/grocery/GroceryList.tsx:37-38 | the text the copy button writes; GroceryList.ClipboardLines states that it reads back as the title, the headers and one line per item |
| GroceryList.ClipboardLines | frontend/src/components/grocery/GroceryList.tsx:37-38 | the copied text reads back as the title, the headers and one line per item of each view, in order |
| PreferenceEdits.AddDisliked | frontend/src/components/settings/PreferencesForm.tsx:46-51 | the trimmed text is appended and the field cleared iff it is non-empty and unlisted, else nothing changes; duplicate-freedom kept |
| PreferenceEdits.AddDislikedAgain | frontend/src/components/settings/PreferencesForm.tsx:46-51 | after an add the trimmed text is listed (or blank), so repeating it changes nothing |
| PreferenceEdits.AddThenRemove | frontend/src/components/settings/PreferencesForm.tsx:46-55 | removing a just-added name restores the list |
| PreferencesForm.Form.constructor | frontend/src/components/settings/PreferencesForm.tsx:16-20 | each field starts as the user's stored preference, the text field empty |
| PreferencesForm.Form.DietChange | frontend/src/components/settings/PreferencesForm.tsx:34-36 | only the diet changes |
| PreferencesForm.Form.AllergyToggle | frontend/src/components/settings/PreferencesForm.tsx:38-44 | the allergy's membership flips, other fields unchanged, duplicate-freedom kept |
| PreferencesForm.Form.InputChange | frontend/src/components/settings/PreferencesForm.tsx:128 | only the text field changes |
| PreferencesForm.Form.AddDislikedIngredient | frontend/src/components/settings/PreferencesForm.tsx:46-51 | the disliked list and field follow the silent trimmed append |
| PreferencesForm.Form.RemoveDisliked | frontend/src/components/settings/PreferencesForm.tsx:53-55 | every equal entry goes, the rest keep their order |
| PreferencesForm.Form.KeyDown | frontend/src/components/settings/PreferencesForm.tsx:57-62 | Enter adds the typed name, other keys change nothing |
| PreferencesForm.Form.Submit | frontend/src/components/settings/PreferencesForm.tsx:64-76 | the saved user is the form's user with only its preferences replaced by the three fields |
| PreferencesForm.Form.SubmitUntouched | frontend/src/components/settings/PreferencesForm.tsx:64-76 | submitting an untouched form hands back the same user |
| OnboardingPage.Wizard.constructor | frontend/src/pages/OnboardingPage.tsx:14-18 | step 1, omnivore, nothing listed |
| OnboardingPage.Wizard.NextStep | frontend/src/pages/OnboardingPage.tsx:62-74 | before step 3 the step rises by one; on step 3 the preferences are saved and the dashboard opens; the step stays in 1..3 |
| OnboardingPage.Wizard.PrevStep | frontend/src/pages/OnboardingPage.tsx:76-82 | after step 1 the step falls by one; on step 1 the landing page opens; the step stays in 1..3 |
| OnboardingPage.Wizard.ButtonLabel | frontend/src/pages/OnboardingPage.tsx:241 | "Continue" iff before the last step, else "Save and Continue" |
| OnboardingPage.Wizard.DietChange | frontend/src/pages/OnboardingPage.tsx:32-34 | only the diet changes |
| OnboardingPage.Wizard.AllergyToggle | frontend/src/pages/OnboardingPage.tsx:36-42 | the allergy's membership flips, duplicate-freedom kept, nothing else changes |
| OnboardingPage.Wizard.InputChange | frontend/src/pages/OnboardingPage.tsx:162 | only the text field changes |
| OnboardingPage.Wizard.AddDislikedIngredient | frontend/src/pages/OnboardingPage.tsx:44-49 | the silent trimmed append |
| OnboardingPage.Wizard.RemoveDisliked | frontend/src/pages/OnboardingPage.tsx:51-53 | every equal entry goes |
| OnboardingPage.Wizard.KeyDown | frontend/src/pages/OnboardingPage.tsx:55-60 | Enter adds the typed name, other keys change nothing |
| OnboardingPage.ForwardThrough | frontend/src/pages/OnboardingPage.tsx:62-74 | three forward clicks pass steps 2 and 3 and then save the defaults |
| Calendar.NextDay | frontend/src/pages/PlannerPage.tsx:26 | the following day is a real date |
| Calendar.PrevDay | frontend/src/pages/PlannerPage.tsx:19 | the preceding day is a real date |
| Calendar.PrevNext | frontend/src/pages/PlannerPage.tsx:19-26 | a step back undoes a step forward |
| Calendar.NextPrev | frontend/src/pages/PlannerPage.tsx:19-26 | a step forward undoes a step back |
| Calendar.AddDays | frontend/src/pages/PlannerPage.tsx:19 | `setDate(getDate() + n)` gives a real date |
| Calendar.AddDaysLast | frontend/src/pages/PlannerPage.tsx:19-26 | the last single-day step can be taken last |
| Calendar.AddDaysInverse | frontend/src/pages/PlannerPage.tsx:19-26 | moving n days and then -n days returns to the start |
| Calendar.DaysBeforeYear | frontend/src/pages/PlannerPage.tsx:19-26 | the Gregorian count of days before a year, which `Date` arithmetic follows; Calendar.DaysBeforeYearClosed states its value |
| Calendar.LeapYearsStep | frontend/src/pages/PlannerPage.tsx:19-26 | the closed count of leap years grows by one exactly past a leap year (every fourth year, except centuries not divisible by 400) |
| Calendar.DaysBeforeYearClosed | frontend/src/pages/PlannerPage.tsx:19-26 | the days before year y are 365 per earlier year plus one per earlier leap year |
| Calendar.YearEnd | frontend/src/pages/PlannerPage.tsx:19-26 | the months of a year add up to its length |
| Calendar.NextDayNumber | frontend/src/pages/PlannerPage.tsx:26 | the next day is one day number later |
| Calendar.DayNumberZero | frontend/src/pages/PlannerPage.tsx:19 | only 0000-01-01 has day number 0 |
| Calendar.AddDaysBackYear | frontend/src/pages/PlannerPage.tsx:19 | stepping back never raises the year |
| Calendar.PrevDayNumber | frontend/src/pages/PlannerPage.tsx:19 | the previous day is one day number earlier, from any day after 0000-01-01 |
| Calendar.BackFromOrigin | frontend/src/pages/PlannerPage.tsx:19 | any step back from 0000-01-01 leaves year 0 |
| Calendar.AddDaysForward | frontend/src/pages/PlannerPage.tsx:26 | n steps forward add n to the day number |
| Calendar.AddDaysBackward | frontend/src/pages/PlannerPage.tsx:19 | n steps back subtract n from the day number while it stays non-negative, and leave year 0 once it would not |
| Calendar.AddDaysNumber | frontend/src/pages/PlannerPage.tsx:19-26 | moving n days changes the day number by exactly n, and the result stays in year 0 or later iff that number is non-negative |
| Calendar.Digit | frontend/src/pages/PlannerPage.tsx:20 | a digit value prints as a digit character |
| Calendar.Format | frontend/src/pages/PlannerPage.tsx:20 | the date part of `toISOString()` has the `YYYY-MM-DD` shape |
| Calendar.Parse | frontend/src/pages/PlannerPage.tsx:18 | a string read as a date is well shaped and names a real day in years 0000..9999 |
| Calendar.Pad2Value | frontend/src/pages/PlannerPage.tsx:20 | two padded digits read back as the number |
| Calendar.ValuePad2 | frontend/src/pages/PlannerPage.tsx:18 | two digits read and printed give the same digits |
| Calendar.ParseFormat | frontend/src/pages/PlannerPage.tsx:18-20 | printing and reading back gives the same date |
| Calendar.FormatParse | frontend/src/pages/PlannerPage.tsx:18-20 | a string that parses is the printed form of its date |
| PlannerPage.ShiftWeek | frontend/src/pages/PlannerPage.tsx:16-28 | an unreadable week fails as invalid; a successful shift is again a readable week |
| PlannerPage.ShiftDistance | frontend/src/pages/PlannerPage.tsx:23-28 | a successful shift lands exactly the given number of days away |
| PlannerPage.ShiftBack | frontend/src/pages/PlannerPage.tsx:16-28 | shifting back by the same amount restores the week string |
| PlannerPage.ShiftFailsOnlyOutOfRange | frontend/src/pages/PlannerPage.tsx:18-20 | a real week fails to shift only when it leaves years 0000..9999 |
| PlannerPage.WeekRange | frontend/src/pages/PlannerPage.tsx:46-53 | the range ends six days after the week start; an unreadable start has no range |
| PlannerPage.Planner.constructor | frontend/src/pages/PlannerPage.tsx:10 | the shown week starts as the plan's week |
| PlannerPage.Planner.NextWeek | frontend/src/pages/PlannerPage.tsx:23-28 | the week moves seven days later, or stays and reports why |
| PlannerPage.Planner.PreviousWeek | frontend/src/pages/PlannerPage.tsx:16-21 | the week moves seven days earlier, or stays and reports why |
| PlannerPage.Planner.NextThenPrevious | frontend/src/pages/PlannerPage.tsx:16-28 | next then previous shows the same week |
| PlannerPage.Planner.PreviousThenNext | frontend/src/pages/PlannerPage.tsx:16-28 | previous then next shows the same week |
| PlannerPage.Planner.AddMeal | frontend/src/pages/PlannerPage.tsx:30-33 | the add handler logs "Add meal for" and the day, and changes no state |
| PlannerPage.Planner.RemoveMeal | frontend/src/pages/PlannerPage.tsx:35-38 | the remove handler logs "Remove meal", the meal type, "for" and the day, and changes no state |
| PlannerPage.Planner.EditMeal | frontend/src/pages/PlannerPage.tsx:40-43 | the edit handler logs "Edit meal", the meal type, "for" and the day, and changes no state |
| PlannerPage.Planner.DayMeals | frontend/src/pages/PlannerPage.tsx:116 | `find` by weekday: the meals of the first plan day for that weekday, none when the plan has no such day |
| PlannerPage.Planner.Columns | frontend/src/pages/PlannerPage.tsx:115-116 | seven columns, Monday to Sunday, each the meals of its weekday; a weekday the plan lacks gets an empty column |
| PlannerPage.MonthCrossing | frontend/src/pages/PlannerPage.tsx:16-28 | 2023-06-26 moves to 2023-07-03 and back |
| PlannerPage.JuneToJuly | frontend/src/pages/PlannerPage.tsx:19 | seven days after 2023-06-26 is 2023-07-03 |
| PlannerPage.PrintedJuneToJuly | frontend/src/pages/PlannerPage.tsx:20 | the two dates print as `2023-06-26` and `2023-07-03` |
| Db.Merged | frontend/src/lib/db.ts:189-199 | the per-tag query results one after the other; Db.MergedMembership states that a recipe is in it iff some tag's query returned it |
| Db.MergedMembership | frontend/src/lib/db.ts:189-198 | a recipe is in the merge iff some tag's query returned it |
| Db.MapSet | frontend/src/lib/db.ts:201 | `Map.set` keeps the keys duplicate-free and matching the entries |
| Db.ById | frontend/src/lib/db.ts:201 | the map built from the merge is well formed |
| Db.ValuesInOrder | frontend/src/lib/db.ts:201 | `values()` lists each key's value in key order |
| Db.GetRecipesByTags | frontend/src/lib/db.ts:184-202 | the loop merges the per-tag results in tag order, then dedups |
| Db.Ids | frontend/src/lib/db.ts:201 | the ids of a list, position by position |
| Db.IdsSnoc | frontend/src/lib/db.ts:201 | one more recipe adds its id at the end |
| Db.FirstIndex | frontend/src/lib/db.ts:201 | the first position holding an id |
| Db.LastWithId | frontend/src/lib/db.ts:201 | the last recipe with an id is in the list |
| Db.FirstIndexPrefix | frontend/src/lib/db.ts:201 | appending does not move an id's first occurrence |
| Db.FirstIndexLast | frontend/src/lib/db.ts:201 | a new id is first found at the end |
| Db.ByIdMeaning | frontend/src/lib/db.ts:201 | the keys are the ids present, in first-occurrence order, each with its last recipe |
| Db.ByIdSnoc | frontend/src/lib/db.ts:201 | the entries are set in list order, the appended recipe last |
| Db.ByIdKeys | frontend/src/lib/db.ts:201 | the keys are exactly the ids present |
| Db.ByIdValues | frontend/src/lib/db.ts:201 | each key maps to the last recipe carrying it |
| Db.ByIdOrder | frontend/src/lib/db.ts:201 | the keys come in order of the ids' first occurrence |
| Db.OrderSnoc | frontend/src/lib/db.ts:201 | appending a recipe, and its id when new, keeps the keys in first-occurrence order |
| Db.KeysBound | frontend/src/lib/db.ts:201 | no more keys than entries |
| Db.Dedup | frontend/src/lib/db.ts:201 | `Array.from(new Map(...).values())`; Db.DedupMeaning states its meaning |
| Db.DedupMeaning | frontend/src/lib/db.ts:201 | pairwise distinct ids, exactly the ids of the merge, no longer than it, first-occurrence order, last value per id |
| Db.DedupEntries | frontend/src/lib/db.ts:201 | the i-th returned recipe is the last one with the i-th key |
| Db.DedupDistinct | frontend/src/lib/db.ts:201 | without repeated ids the dedup is the identity |
| Db.DistinctKeys | frontend/src/lib/db.ts:201 | with distinct ids the keys are the ids and each maps to its recipe |
| Db.DistinctStep | frontend/src/lib/db.ts:201 | a recipe with a new id becomes the last key and maps to itself, the other entries unchanged |
| Db.SliceTo | frontend/src/lib/db.ts:165 | `slice(0, limit)` is a prefix of length min(limit, n), and counts from the end for a negative limit |
| Db.RecentMealPlans | frontend/src/lib/db.ts:157-165 | the first min(limit, n) plans of the query result |
| Db.RecentAll | frontend/src/lib/db.ts:157-165 | a limit at least the count returns every plan |
| Db.RecentDefaultLimit | frontend/src/lib/db.ts:157 | without a limit argument the five newest plans are returned, or all of them when there are fewer |
| Db.StoreItems | frontend/src/lib/db.ts:95-99 | items keep count, order and every field but a fresh id and a server timestamp |
| Db.CreateGroceryList | frontend/src/lib/db.ts:89-105 | the list document carries the new id, server timestamps and the shaped items in order |
| PreferencesRoute.Fields | backend/routes/preferences.py:17 | `split("Bearer ")` always gives at least one field |
| PreferencesRoute.ContainsTail | backend/routes/preferences.py:17 | past a non-separator start, the text contains the separator iff its tail does |
| PreferencesRoute.FieldsSingle | backend/routes/preferences.py:17 | one field iff the separator does not occur, and it is then the whole text |
| PreferencesRoute.LastField | backend/routes/preferences.py:17 | `split(sep)[-1]`; PreferencesRoute.LastFieldMeaning states that it is the text after the last separator |
| PreferencesRoute.LastFieldMeaning | backend/routes/preferences.py:17 | `[-1]` is the text after the last occurrence of the separator and contains none |
| PreferencesRoute.LastFieldWhole | backend/routes/preferences.py:17 | without a separator the last field is the whole text |
| PreferencesRoute.LastFieldSkipSep | backend/routes/preferences.py:17 | a leading separator does not change the last field |
| PreferencesRoute.LastFieldSkipChar | backend/routes/preferences.py:17 | a leading character does not change the last field when the rest holds a separator |
| PreferencesRoute.AfterLastSkipSep | backend/routes/preferences.py:17 | the text after the last separator is unchanged by a leading separator |
| PreferencesRoute.AfterLastSkipChar | backend/routes/preferences.py:17 | the text after the last separator is unchanged by a leading character |
| PreferencesRoute.GetUserId | backend/routes/preferences.py:11-18 | a header without the "Bearer " prefix raises the error; otherwise the answer is the verifier's for the token |
| PreferencesRoute.Token | backend/routes/preferences.py:17 | the token after "Bearer "; PreferencesRoute.TokenShape states its shape |
| PreferencesRoute.TokenShape | backend/routes/preferences.py:17 | the token never contains "Bearer ", and is the header minus 7 characters when "Bearer " is only the prefix |
| PreferencesRoute.BareScheme | backend/routes/preferences.py:17 | "Bearer " alone gives the empty token |
| InventoryRoute.ToIngredients | backend/routes/inventory.py:13 | one ingredient per name, in order, each with quantity "" |
| InventoryRoute.Names | backend/models/ingredient.py:4-6 | the names of the ingredients, in order |
| InventoryRoute.NamesOfIngredients | backend/routes/inventory.py:13 | building ingredients and reading the names back gives the names |
| InventoryRoute.UploadInventory | backend/routes/inventory.py:7-23 | non-empty names give their ingredients; else a file gives milk, spinach, cheese; else []; quantities "" |
| InventoryRoute.NamesWinOverFile | backend/routes/inventory.py:12-14 | non-empty names win whatever file comes with them |
| InventoryRoute.EmptyListIsAbsent | backend/routes/inventory.py:12-23 | an empty name list counts as none |
| DashboardPage.Greeting | frontend/src/pages/DashboardPage.tsx:12-17 | morning iff hour < 12, afternoon iff 12 <= hour < 18, evening iff hour >= 18 |
| DashboardPage.TodayMeals | frontend/src/pages/DashboardPage.tsx:20-21 | the meals of the first plan day named today, or [] |
| DashboardPage.RecentlyAdded | frontend/src/pages/DashboardPage.tsx:101 | the first min(3, n) fridge items, in order |
| DashboardPage.InFridgeCount | frontend/src/pages/DashboardPage.tsx:309 | the in-fridge count never exceeds the ingredient count |
| DashboardPage.InFridgeCountMeaning | frontend/src/pages/DashboardPage.tsx:309 | the count is the number of ingredients marked in the fridge, and equals the ingredient count iff all are |
| DashboardPage.Suggestions | frontend/src/pages/DashboardPage.tsx:271-309 | the first min(3, n) recipes, each with its first min(2, k) tags, its in-fridge count and a link to "/meals/" + id |
| DashboardPage.Card | frontend/src/pages/DashboardPage.tsx:271-309 | one suggestion card: the recipe's id, a link "/meals/" + id, its first min(2, k) tags and the number of its ingredients marked in the fridge |
| DashboardPage.LinkIdentifiesRecipe | frontend/src/pages/DashboardPage.tsx:275 | a card's link gives back the recipe id, so distinct ids lead to distinct pages |
| RecipeCard.IngredientNames | frontend/src/components/recipes/RecipeCard.tsx:70 | the names, in order |
| RecipeCard.MainIngredients | frontend/src/components/recipes/RecipeCard.tsx:67-71 | min(3, in-fridge count) names, each of an in-fridge ingredient |
| RecipeCard.TakeFilterIsScan | frontend/src/components/recipes/RecipeCard.tsx:67-70 | the names of the first n filtered ingredients are what a one-pass scan collects |
| RecipeCard.ScanStepIn | frontend/src/components/recipes/RecipeCard.tsx:67-70 | an in-fridge first ingredient is both the first name shown and the first scanned |
| RecipeCard.ScanStepOut | frontend/src/components/recipes/RecipeCard.tsx:67-70 | an ingredient outside the fridge is skipped by both |
| RecipeCard.NamesTakeCons | frontend/src/components/recipes/RecipeCard.tsx:67-70 | the first n names of a list with a head are the head's name, then n - 1 from the rest |
| RecipeCard.MainIngredientsAreFirstThree | frontend/src/components/recipes/RecipeCard.tsx:67-71 | the main ingredients are the first three in-fridge ones in recipe order |
| RecipeCard.Summary | frontend/src/components/recipes/RecipeCard.tsx:66-72 | "" with nothing in the fridge; just the joined names with at most three |
| RecipeCard.SummaryEllipsis | frontend/src/components/recipes/RecipeCard.tsx:72 | the summary starts with the joined names, and ", ..." follows iff more than three are in the fridge |
| RecipeCard.TagBadges | frontend/src/components/recipes/RecipeCard.tsx:35-39 | the first min(2, k) tags, the first green and the second coral |
| RecipeCard.DifficultyClass | frontend/src/components/recipes/RecipeCard.tsx:54-56 | each difficulty has its own class |
| RecipeCard.DifficultyClassInjective | frontend/src/components/recipes/RecipeCard.tsx:54-56 | different difficulties get different classes |
| RecipeCard.Click | frontend/src/components/recipes/RecipeCard.tsx:77-92 | a button calls its callback with the recipe iff that callback was passed |
| MealPlanModal.KindCaption | frontend/src/components/planner/MealPlanModal.tsx:81 | the type name with its first letter upper-cased |
| MealPlanModal.KindButtons | frontend/src/components/planner/MealPlanModal.tsx:71-81 | every type has a button and the captions differ |
| MealPlanModal.Modal.constructor | frontend/src/components/planner/MealPlanModal.tsx:23-25 | the type starts as `mealType` or lunch, the recipe as `currentRecipe` |
| MealPlanModal.Modal.SelectType | frontend/src/components/planner/MealPlanModal.tsx:71-74 | the chosen type is set, nothing else changes |
| MealPlanModal.Modal.SelectRecipe | frontend/src/components/planner/MealPlanModal.tsx:109 | the clicked recipe is chosen |
| MealPlanModal.Modal.SearchChange | frontend/src/components/planner/MealPlanModal.tsx:95 | only the search text changes |
| MealPlanModal.Modal.HandleSave | frontend/src/components/planner/MealPlanModal.tsx:36-41 | with no recipe nothing is called; else one save with day, type and recipe, then close; nothing is called iff the button is disabled |
| MealPlanModal.Modal.HandleClose | frontend/src/components/planner/MealPlanModal.tsx:140-147 | close and cancel call only `onClose` |
| MealPlanModal.Modal.Render | frontend/src/components/planner/MealPlanModal.tsx:43-152 | nothing while closed; "Edit Meal"/"Update Meal" iff a recipe was passed in, else "Add Meal"; save disabled iff no recipe is chosen |
| MealPlanModal.Modal.SaveDisabled | frontend/src/components/planner/MealPlanModal.tsx:150 | `disabled={!selectedRecipe}`; MealPlanModal.Modal.HandleSave states that nothing is called iff it holds |

## Left out

- Rendering, styling, icons and animation are not modelled. The models cover the state and the values the markup shows.
- Firestore reads and writes, `serverTimestamp` values, `crypto.randomUUID` and document ids are parameters or placeholders. Only the logic around them is modelled.
- Time zones and daylight saving time are not modelled. A `YYYY-MM-DD` string is treated as a calendar day.
- Date strings of other forms, and dates outside years 0000..9999, are not modelled. `Date.parse` accepts other forms, and dates past 9999 print as expanded years. The model reports these as errors. This includes a week shift that crosses year 9999 or year 0000.
- `Date` overflow in the engine (an out-of-range day rolling over into the next month) is not modelled. The model rejects such strings as invalid.
- `formatWeekRange` is modelled as the two dates only. The locale text it prints is not modelled.
- `Object.entries` lists integer-like keys first. That ordering is not modelled. The grouping keeps keys in insertion order.
- JavaScript numbers are modelled as `int`. The minutes and counts involved are whole numbers.
- Clipboard writes and `alert`, `localStorage`, `navigate`, `FileReader` and `setTimeout` are modelled as returned effects, parameters, or in-flight counters. None of them is performed.
- `console.log` is modelled only in the three planner handlers, whose only action it is: each returns the arguments it logs. The logs of `handleAddToMealPlan` (`MealsPage.tsx:22-25`) and of the camera button (`FridgeUploader.tsx:130`) are not modelled; they change no state.
- `window.scrollTo` is not modelled.
- The 422 error FastAPI returns for a missing `Authorization` header is not modelled. It is produced by the framework before `get_user_id` runs.
- An uploaded file is assumed to be truthy whenever it is present. The file's content is never read.
- `verify_firebase_token` is modelled as a parameter.
- `SettingsPage`, the other display-only components, the CrewAI pipeline and the meals route are not part of this model.
- MealPlanModal's recipe list is never filled in the source, because the fetch is a placeholder. `MealPlanModal.Modal.SelectRecipe` can be called here, but the running dialog has no recipe to click.
- `MealPlanModal.Modal.Render` covers the title, the save button and the highlighted type, not the rest of the dialog.
- The time filter is modelled as written, combining the selected buckets with AND. No OR version is provided.
- GroceryList.GroupByCategory: a category named like an inherited `Object.prototype` member ("constructor", "toString", "hasOwnProperty", "__proto__" and the like) is grouped like any other category. In the source the group object is a plain `{}`, so `!groups[category]` is false for such a name and no array is created. The following `push` then throws a TypeError while the component renders (`GroceryList.tsx:26-29`, `34-35`). The model does not capture that failure.

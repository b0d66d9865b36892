/** The front end's record shapes (frontend/src/types/index.ts) as datatypes,
    plus the Option and Result wrappers the operations use for absent values
    and error paths. Numbers are whole minutes or counts, so `int` stands for
    JavaScript's `number` here. */
module Types {

  datatype Option<T> = None | Some(value: T)

  datatype Result<T, E> = Ok(value: T) | Err(error: E)

  datatype Difficulty = Easy | Medium | Hard

  /** The string a difficulty shows as, which the filter lists compare against. */
  function DifficultyName(d: Difficulty): string {
    match d
    case Easy => "Easy"
    case Medium => "Medium"
    case Hard => "Hard"
  }

  datatype RecipeIngredient = RecipeIngredient(name: string, amount: string, inFridge: bool)

  datatype Recipe = Recipe(
    id: string,
    name: string,
    description: string,
    prepTime: int,
    cookTime: int,
    totalTime: int,
    servings: int,
    difficulty: Difficulty,
    tags: seq<string>,
    ingredients: seq<RecipeIngredient>,
    instructions: seq<string>,
    imageUrl: string)

  datatype DietaryPreference =
    Omnivore | Vegetarian | Vegan | Pescatarian | Keto | Paleo | GlutenFree

  datatype Allergy = Gluten | Nuts | Dairy | Soy | Eggs | Shellfish

  datatype Preferences = Preferences(
    diet: DietaryPreference,
    allergies: seq<Allergy>,
    dislikedIngredients: seq<string>)

  datatype User = User(id: string, name: string, email: string, preferences: Preferences)

  datatype Weekday = Monday | Tuesday | Wednesday | Thursday | Friday | Saturday | Sunday

  datatype MealKind = Breakfast | Lunch | Dinner | Snack

  datatype Meal = Meal(kind: MealKind, recipe: Recipe)

  datatype DayPlan = DayPlan(day: Weekday, meals: seq<Meal>)

  datatype MealPlan = MealPlan(id: string, week: string, days: seq<DayPlan>)

  datatype GroceryItem = GroceryItem(
    id: string,
    name: string,
    category: string,
    inFridge: bool,
    checked: bool)

  /** `addedAt` and `expiresAt` are instants, kept as opaque milliseconds. */
  datatype FridgeItem = FridgeItem(
    id: string,
    name: string,
    quantity: Option<string>,
    addedAt: int,
    expiresAt: Option<int>)

  /** The meals of the first plan entry for `day`, or [] when none matches:
      `days.find(d => d.day === day)?.meals || []`. */
  function MealsOn(days: seq<DayPlan>, day: Weekday): (r: seq<Meal>)
    ensures (forall i :: 0 <= i < |days| ==> days[i].day != day) ==> r == []
    ensures forall i :: (0 <= i < |days| && days[i].day == day
      && (forall k :: 0 <= k < i ==> days[k].day != day)) ==> r == days[i].meals
    decreases |days|
  {
    if days == [] then []
    else if days[0].day == day then days[0].meals
    else MealsOn(days[1..], day)
  }
}

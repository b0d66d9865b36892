/** The dashboard's derived values (frontend/src/pages/DashboardPage.tsx):
    the greeting for the hour, today's meals, the "recently added" fridge
    items and the three recipe suggestion cards. The clock is a parameter:
    the hour of the day and today's weekday. */
module DashboardPage {
  import opened Types
  import opened Lists

  const MORNING: string := "Good morning"
  const AFTERNOON: string := "Good afternoon"
  const EVENING: string := "Good evening"

  /** The greeting for `new Date().getHours()`. */
  function Greeting(hour: int): (g: string)
    ensures g == MORNING <==> hour < 12
    ensures g == AFTERNOON <==> 12 <= hour < 18
    ensures g == EVENING <==> hour >= 18
  {
    if hour < 12 then MORNING
    else if hour < 18 then AFTERNOON
    else EVENING
  }

  /** The meals of the first plan day named like today, or []. */
  function TodayMeals(plan: MealPlan, today: Weekday): (r: seq<Meal>)
    ensures (forall i :: 0 <= i < |plan.days| ==> plan.days[i].day != today) ==> r == []
    ensures forall i :: (0 <= i < |plan.days| && plan.days[i].day == today
      && (forall k :: 0 <= k < i ==> plan.days[k].day != today)) ==> r == plan.days[i].meals
  {
    MealsOn(plan.days, today)
  }

  /** `mockFridgeItems.slice(0, 3)`. */
  function RecentlyAdded(items: seq<FridgeItem>): (r: seq<FridgeItem>)
    ensures r == items[..Min(3, |items|)]
  {
    Take(items, 3)
  }

  predicate IsInFridge(i: RecipeIngredient) { i.inFridge }

  /** `recipe.ingredients.filter(i => i.inFridge).length`. */
  function InFridgeCount(ingredients: seq<RecipeIngredient>): (n: nat)
    ensures n <= |ingredients|
  {
    |Filter(ingredients, IsInFridge)|
  }

  /** Counting one ingredient at a time. */
  function CountInFridge(ingredients: seq<RecipeIngredient>): nat
    decreases |ingredients|
  {
    if ingredients == [] then 0
    else (if ingredients[0].inFridge then 1 else 0) + CountInFridge(ingredients[1..])
  }

  /** The filtered length is the number of ingredients marked in the fridge,
      and it equals the ingredient count exactly when all of them are. */
  lemma {:induction false} InFridgeCountMeaning(ingredients: seq<RecipeIngredient>)
    ensures InFridgeCount(ingredients) == CountInFridge(ingredients)
    ensures InFridgeCount(ingredients) == |ingredients| <==>
      forall i :: 0 <= i < |ingredients| ==> ingredients[i].inFridge
    decreases |ingredients|
  {
    if ingredients != [] {
      var t := ingredients[1..];
      InFridgeCountMeaning(t);
      assert Filter(ingredients, IsInFridge)
        == (if IsInFridge(ingredients[0]) then [ingredients[0]] else []) + Filter(t, IsInFridge);
      if forall i :: 0 <= i < |t| ==> t[i].inFridge {
        if ingredients[0].inFridge {
          forall i | 0 <= i < |ingredients| ensures ingredients[i].inFridge {
            if i > 0 { assert ingredients[i] == t[i - 1]; }
          }
        }
      } else {
        var k :| 0 <= k < |t| && !t[k].inFridge;
        assert !ingredients[k + 1].inFridge;
      }
    }
  }

  const MEALS_PATH: string := "/meals/"

  /** What one suggestion card shows and where a click on it leads. */
  datatype Suggestion = Suggestion(recipeId: string, tags: seq<string>, inFridge: nat, link: string)

  function Card(recipe: Recipe): (c: Suggestion)
    ensures c.recipeId == recipe.id && |c.link| >= |MEALS_PATH| && c.link[|MEALS_PATH|..] == recipe.id
    ensures c.inFridge == CountInFridge(recipe.ingredients)
    ensures |c.tags| == Min(2, |recipe.tags|) && c.tags == recipe.tags[..Min(2, |recipe.tags|)]
  {
    InFridgeCountMeaning(recipe.ingredients);
    Suggestion(recipe.id, Take(recipe.tags, 2), InFridgeCount(recipe.ingredients), MEALS_PATH + recipe.id)
  }

  /** `mockRecipes.slice(0, 3).map(...)`: the first min(3, n) recipes, each with
      its first min(2, k) tags, its in-fridge count and a link to its page. */
  function Suggestions(recipes: seq<Recipe>): (r: seq<Suggestion>)
    ensures |r| == Min(3, |recipes|)
    ensures forall i :: 0 <= i < |r| ==>
      r[i].recipeId == recipes[i].id
      && r[i].tags == recipes[i].tags[..Min(2, |recipes[i].tags|)]
      && r[i].inFridge == InFridgeCount(recipes[i].ingredients)
      && r[i].inFridge <= |recipes[i].ingredients|
      && r[i].link == MEALS_PATH + recipes[i].id
  {
    var shown := Take(recipes, 3);
    seq(|shown|, i requires 0 <= i < |shown| => Card(shown[i]))
  }

  /** The link of a card gives back the recipe id, so distinct recipes lead to
      distinct pages. */
  lemma LinkIdentifiesRecipe(a: Recipe, b: Recipe)
    ensures Card(a).link[|MEALS_PATH|..] == a.id
    ensures Card(a).link == Card(b).link <==> a.id == b.id
  {
    assert Card(a).link[|MEALS_PATH|..] == a.id;
    if Card(a).link == Card(b).link {
      assert Card(b).link[|MEALS_PATH|..] == b.id;
    }
  }
}

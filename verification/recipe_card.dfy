/** The recipe card (frontend/src/components/recipes/RecipeCard.tsx): the
    "main ingredients" line, the tag badges, the difficulty style and the two
    buttons, whose callbacks are optional props. */
module RecipeCard {
  import opened Types
  import opened Lists
  import DashboardPage

  const SEPARATOR: string := ", "
  const ELLIPSIS: string := ", ..."

  /** The names of a list of ingredients, in order. */
  function IngredientNames(ingredients: seq<RecipeIngredient>): (r: seq<string>)
    ensures |r| == |ingredients|
    ensures forall i :: 0 <= i < |r| ==> r[i] == ingredients[i].name
  {
    seq(|ingredients|, i requires 0 <= i < |ingredients| => ingredients[i].name)
  }

  /** `ingredients.filter(ing => ing.inFridge).slice(0, 3).map(ing => ing.name)`. */
  function MainIngredients(ingredients: seq<RecipeIngredient>): (r: seq<string>)
    ensures |r| == Min(3, DashboardPage.InFridgeCount(ingredients))
    ensures forall x :: x in r ==> exists i :: i in ingredients && i.inFridge && i.name == x
  {
    var fridge := Filter(ingredients, DashboardPage.IsInFridge);
    var shown := Take(fridge, 3);
    assert forall k :: 0 <= k < |shown| ==> shown[k] in fridge;
    IngredientNames(shown)
  }

  /** A reference scan: walk the recipe's ingredients in order and collect the
      names of the first `n` that are in the fridge. */
  function FirstInFridge(ingredients: seq<RecipeIngredient>, n: nat): seq<string>
    decreases |ingredients|
  {
    if ingredients == [] || n == 0 then []
    else if ingredients[0].inFridge then [ingredients[0].name] + FirstInFridge(ingredients[1..], n - 1)
    else FirstInFridge(ingredients[1..], n)
  }

  /** The names of the first `n` elements of a filtered list are what the
      one-pass scan collects. */
  lemma {:induction false} TakeFilterIsScan(ingredients: seq<RecipeIngredient>, n: nat)
    ensures IngredientNames(Take(Filter(ingredients, DashboardPage.IsInFridge), n)) == FirstInFridge(ingredients, n)
    decreases |ingredients|
  {
    if ingredients != [] && n > 0 {
      var x := ingredients[0];
      var t := ingredients[1..];
      assert ingredients == [x] + t;
      if x.inFridge {
        TakeFilterIsScan(t, n - 1);
        ScanStepIn(x, t, n);
      } else {
        TakeFilterIsScan(t, n);
        ScanStepOut(x, t, n);
      }
    }
  }

  /** An in-fridge head is the first name shown and the first one scanned. */
  lemma ScanStepIn(x: RecipeIngredient, t: seq<RecipeIngredient>, n: nat)
    requires x.inFridge && n > 0
    requires IngredientNames(Take(Filter(t, DashboardPage.IsInFridge), n - 1)) == FirstInFridge(t, n - 1)
    ensures IngredientNames(Take(Filter([x] + t, DashboardPage.IsInFridge), n)) == FirstInFridge([x] + t, n)
  {
    var p := DashboardPage.IsInFridge;
    assert ([x] + t)[1..] == t;
    assert Filter([x] + t, p) == [x] + Filter(t, p);
    NamesTakeCons(x, Filter(t, p), n);
  }

  /** A head outside the fridge is skipped by both. */
  lemma ScanStepOut(x: RecipeIngredient, t: seq<RecipeIngredient>, n: nat)
    requires !x.inFridge && n > 0
    requires IngredientNames(Take(Filter(t, DashboardPage.IsInFridge), n)) == FirstInFridge(t, n)
    ensures IngredientNames(Take(Filter([x] + t, DashboardPage.IsInFridge), n)) == FirstInFridge([x] + t, n)
  {
    var p := DashboardPage.IsInFridge;
    assert ([x] + t)[1..] == t;
    assert Filter([x] + t, p) == Filter(t, p);
  }

  /** Taking `n` from a list with a head shows the head's name, then the
      names of `n - 1` from the rest. */
  lemma NamesTakeCons(x: RecipeIngredient, s: seq<RecipeIngredient>, n: nat)
    requires n > 0
    ensures IngredientNames(Take([x] + s, n)) == [x.name] + IngredientNames(Take(s, n - 1))
  {
    var a := IngredientNames(Take([x] + s, n));
    var b := [x.name] + IngredientNames(Take(s, n - 1));
    assert |a| == |b|;
    forall k | 0 <= k < |a| ensures a[k] == b[k] {
      if k > 0 { assert ([x] + s)[k] == s[k - 1]; }
    }
  }

  /** The main ingredients are the first three in-fridge ingredients in recipe
      order. */
  lemma MainIngredientsAreFirstThree(ingredients: seq<RecipeIngredient>)
    ensures MainIngredients(ingredients) == FirstInFridge(ingredients, 3)
  {
    TakeFilterIsScan(ingredients, 3);
  }

  /** The text of the line: the names joined by ", ", then ", ..." when more
      than three ingredients are in the fridge (JSX renders `false` as
      nothing). */
  function Summary(ingredients: seq<RecipeIngredient>): (r: string)
    ensures DashboardPage.InFridgeCount(ingredients) == 0 ==> r == ""
    ensures DashboardPage.InFridgeCount(ingredients) <= 3 ==> r == Join(MainIngredients(ingredients), SEPARATOR)
  {
    var more := DashboardPage.InFridgeCount(ingredients) > 3;
    Join(MainIngredients(ingredients), SEPARATOR) + (if more then ELLIPSIS else "")
  }

  /** The summary starts with the joined names, and what follows them is
      ", ..." exactly when more than three ingredients are in the fridge. */
  lemma SummaryEllipsis(ingredients: seq<RecipeIngredient>)
    ensures
      var joined := Join(MainIngredients(ingredients), SEPARATOR);
      var r := Summary(ingredients);
      |joined| <= |r| && r[..|joined|] == joined
      && (r[|joined|..] == ELLIPSIS <==> DashboardPage.InFridgeCount(ingredients) > 3)
  {
    var joined := Join(MainIngredients(ingredients), SEPARATOR);
    if DashboardPage.InFridgeCount(ingredients) > 3 {
      assert Summary(ingredients) == joined + ELLIPSIS;
    } else {
      assert Summary(ingredients)[|joined|..] == [];
    }
  }

  datatype BadgeColor = Green | Coral

  datatype Badge = Badge(tag: string, color: BadgeColor)

  /** `recipe.tags.slice(0, 2).map((tag, index) => ...)` with the colour
      `index % 2 === 0 ? 'green' : 'coral'`. */
  function TagBadges(tags: seq<string>): (r: seq<Badge>)
    ensures |r| == Min(2, |tags|)
    ensures forall i :: 0 <= i < |r| ==> r[i].tag == tags[i]
    ensures |r| >= 1 ==> r[0].color == Green
    ensures |r| >= 2 ==> r[1].color == Coral
  {
    var shown := Take(tags, 2);
    seq(|shown|, i requires 0 <= i < |shown| => Badge(shown[i], if i % 2 == 0 then Green else Coral))
  }

  const EASY_CLASS: string := "bg-green-primary/20 text-green-dark"
  const MEDIUM_CLASS: string := "bg-amber-100 text-amber-600"
  const HARD_CLASS: string := "bg-coral/20 text-coral"

  /** The style of the difficulty pill: "Easy", then "Medium", else the third
      class. */
  function DifficultyClass(d: Difficulty): (c: string)
    ensures c == EASY_CLASS <==> d == Easy
    ensures c == MEDIUM_CLASS <==> d == Medium
    ensures c == HARD_CLASS <==> d == Hard
  {
    if DifficultyName(d) == "Easy" then EASY_CLASS
    else if DifficultyName(d) == "Medium" then MEDIUM_CLASS
    else HARD_CLASS
  }

  /** Different difficulties get different styles. */
  lemma DifficultyClassInjective(a: Difficulty, b: Difficulty)
    ensures DifficultyClass(a) == DifficultyClass(b) <==> a == b
  {
  }

  datatype Button = ViewRecipe | AddToMealPlan

  /** A call of one of the two optional callbacks with the card's recipe. */
  datatype Call = Call(button: Button, recipe: Recipe)

  /** A click on a button: `onViewRecipe && onViewRecipe(recipe)` and the same
      for `onAddToMealPlan`; the flags say which callbacks were passed. */
  function Click(button: Button, recipe: Recipe, hasView: bool, hasAdd: bool): (r: Option<Call>)
    ensures r.Some? <==> (if button == ViewRecipe then hasView else hasAdd)
    ensures r.Some? ==> r.value == Call(button, recipe)
  {
    match button
    case ViewRecipe => if hasView then Some(Call(ViewRecipe, recipe)) else None
    case AddToMealPlan => if hasAdd then Some(Call(AddToMealPlan, recipe)) else None
  }
}

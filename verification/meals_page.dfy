/** The recipe browser's filter (frontend/src/pages/MealsPage.tsx): three
    filter lists held as page state, toggled one value at a time, and a
    predicate that narrows the catalog. */
module MealsPage {
  import opened Types
  import opened Lists

  const UNDER_15: string := "< 15 min"
  const FROM_15_TO_30: string := "15-30 min"
  const OVER_30: string := "> 30 min"

  datatype Category = DifficultyCategory | TimeCategory | DietCategory

  datatype Filters = Filters(difficulty: seq<string>, time: seq<string>, diet: seq<string>)

  /** The time test exactly as written: each selected bucket the recipe lies
      outside of rejects it, so the selected buckets are combined with AND. */
  predicate TimeRejects(time: seq<string>, totalTime: int) {
    (UNDER_15 in time && totalTime >= 15)
    || (FROM_15_TO_30 in time && (totalTime < 15 || totalTime > 30))
    || (OVER_30 in time && totalTime <= 30)
  }

  /** The body of the `filter` callback: difficulty, then time, then diet. */
  predicate Keep(f: Filters, r: Recipe) {
    if |f.difficulty| > 0 && DifficultyName(r.difficulty) !in f.difficulty then false
    else if |f.time| > 0 && TimeRejects(f.time, r.totalTime) then false
    else if |f.diet| > 0 && !(exists d :: d in f.diet && d in r.tags) then false
    else true
  }

  /** `mockRecipes.filter(...)`: the recipes that pass, in catalog order. */
  function FilteredRecipes(catalog: seq<Recipe>, f: Filters): (r: seq<Recipe>)
    ensures IsSubsequence(r, catalog)
    ensures forall x :: x in r <==> x in catalog && Keep(f, x)
  {
    FilterIsSubsequence(catalog, x => Keep(f, x));
    Filter(catalog, x => Keep(f, x))
  }

  // ---- Reference meaning of the time buckets ----

  predicate IsBucket(b: string) {
    b == UNDER_15 || b == FROM_15_TO_30 || b == OVER_30
  }

  /** Where each bucket's edges lie: "< 15" is t < 15, "15-30" is inclusive at
      both ends, "> 30" is t > 30. */
  predicate InBucket(b: string, t: int)
    requires IsBucket(b)
  {
    if b == UNDER_15 then t < 15
    else if b == FROM_15_TO_30 then 15 <= t <= 30
    else t > 30
  }

  /** A recipe passes the time test exactly when its total time lies in EVERY
      selected known bucket; strings that are not buckets exclude nothing. */
  lemma TimePassesIffInEveryBucket(time: seq<string>, t: int)
    ensures !TimeRejects(time, t) <==> forall b :: b in time && IsBucket(b) ==> InBucket(b, t)
  {
    if TimeRejects(time, t) {
      if UNDER_15 in time && t >= 15 { assert !InBucket(UNDER_15, t); }
      else if FROM_15_TO_30 in time && (t < 15 || t > 30) { assert !InBucket(FROM_15_TO_30, t); }
      else { assert !InBucket(OVER_30, t); }
    }
  }

  /** The buckets are pairwise disjoint. */
  lemma BucketsDisjoint(b1: string, b2: string, t: int)
    requires IsBucket(b1) && IsBucket(b2) && b1 != b2
    ensures !(InBucket(b1, t) && InBucket(b2, t))
  {
  }

  /** Membership in the result, dimension by dimension: OR within difficulty
      and diet, AND across the selected time buckets, AND across dimensions. */
  lemma FilteredMembership(catalog: seq<Recipe>, f: Filters, x: Recipe)
    ensures x in FilteredRecipes(catalog, f) <==>
      x in catalog
      && (f.difficulty == [] || DifficultyName(x.difficulty) in f.difficulty)
      && (forall b :: b in f.time && IsBucket(b) ==> InBucket(b, x.totalTime))
      && (f.diet == [] || exists d :: d in f.diet && d in x.tags)
  {
    TimePassesIffInEveryBucket(f.time, x.totalTime);
  }

  /** With all three lists empty the result is the whole catalog. */
  lemma NoFiltersKeepsCatalog(catalog: seq<Recipe>)
    ensures FilteredRecipes(catalog, Filters([], [], [])) == catalog
  {
    FilterAll(catalog, x => Keep(Filters([], [], []), x));
  }

  /** Selecting two different buckets at once empties the result. */
  lemma TwoBucketsEmpty(catalog: seq<Recipe>, f: Filters, b1: string, b2: string)
    requires b1 in f.time && b2 in f.time && IsBucket(b1) && IsBucket(b2) && b1 != b2
    ensures FilteredRecipes(catalog, f) == []
  {
    var r := FilteredRecipes(catalog, f);
    if r != [] {
      var x := r[0];
      assert x in r;
      TimePassesIffInEveryBucket(f.time, x.totalTime);
      BucketsDisjoint(b1, b2, x.totalTime);
      assert false;
    }
  }

  function SampleRecipe(id: string, totalTime: int, d: Difficulty, tags: seq<string>): Recipe {
    Recipe(id, id, "", 0, totalTime, totalTime, 2, d, tags, [], [], "")
  }

  /** Three recipes of 10, 25 and 40 minutes: "15-30 min" alone keeps only the
      25-minute one. */
  lemma BucketScenario()
    ensures
      var r10 := SampleRecipe("1", 10, Easy, ["Salad", "Vegan", "Healthy", "Quick"]);
      var r25 := SampleRecipe("2", 25, Easy, ["Stir Fry", "Vegetarian", "Quick"]);
      var r40 := SampleRecipe("3", 40, Medium, ["Soup", "Vegan", "Comfort Food"]);
      FilteredRecipes([r10, r25, r40], Filters([], [FROM_15_TO_30], [])) == [r25]
  {
    var r10 := SampleRecipe("1", 10, Easy, ["Salad", "Vegan", "Healthy", "Quick"]);
    var r25 := SampleRecipe("2", 25, Easy, ["Stir Fry", "Vegetarian", "Quick"]);
    var r40 := SampleRecipe("3", 40, Medium, ["Soup", "Vegan", "Comfort Food"]);
    var f := Filters([], [FROM_15_TO_30], []);
    assert UNDER_15 !in f.time && OVER_30 !in f.time;
    assert [r10, r25, r40][1..] == [r25, r40];
    assert [r25, r40][1..] == [r40];
    assert [r40][1..] == [];
  }

  /** The page's three filter lists. */
  class FilterState {
    var difficultyFilter: seq<string>
    var timeFilter: seq<string>
    var dietFilter: seq<string>

    function Current(): Filters
      reads this
    {
      Filters(difficultyFilter, timeFilter, dietFilter)
    }

    /** The recipes the page shows for the current filters. */
    function Visible(catalog: seq<Recipe>): (r: seq<Recipe>)
      reads this
      ensures IsSubsequence(r, catalog)
    {
      FilteredRecipes(catalog, Current())
    }

    constructor ()
      ensures Current() == Filters([], [], [])
    {
      difficultyFilter, timeFilter, dietFilter := [], [], [];
    }

    /** `handleFilterChange`: toggle `filter` in the list of `category`; the
        other two lists are untouched. */
    method FilterChange(filter: string, category: Category)
      modifies this
      ensures category == DifficultyCategory ==>
        Current() == old(Current()).(difficulty := Toggle(old(difficultyFilter), filter))
      ensures category == TimeCategory ==>
        Current() == old(Current()).(time := Toggle(old(timeFilter), filter))
      ensures category == DietCategory ==>
        Current() == old(Current()).(diet := Toggle(old(dietFilter), filter))
    {
      match category
      case DifficultyCategory => difficultyFilter := Toggle(difficultyFilter, filter);
      case TimeCategory => timeFilter := Toggle(timeFilter, filter);
      case DietCategory => dietFilter := Toggle(dietFilter, filter);
    }

    /** `clearFilters`: all three lists empty, so every recipe shows again. */
    method ClearFilters()
      modifies this
      ensures Current() == Filters([], [], [])
      ensures forall catalog :: Visible(catalog) == catalog
    {
      difficultyFilter, timeFilter, dietFilter := [], [], [];
      forall catalog: seq<Recipe> ensures Visible(catalog) == catalog {
        NoFiltersKeepsCatalog(catalog);
      }
    }
  }
}

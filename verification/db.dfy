/** The data-access helpers of frontend/src/lib/db.ts with the Firestore
    calls taken out: query results and fresh ids arrive as parameters, and
    what is left is the merging, deduplication, slicing and shaping the
    helpers do themselves. */
module Db {
  import opened Types
  import opened Lists

  /** The timestamp fields: a stored instant, or the `serverTimestamp()`
      placeholder the server fills in. */
  datatype Stamp = At(millis: int) | ServerTimestamp

  /** The stored difficulty, spelt in lower case ('easy' | 'medium' | 'hard'),
      unlike the capitalised names the pages use. */
  datatype StoredDifficulty = LowerEasy | LowerMedium | LowerHard

  datatype StoredIngredient = StoredIngredient(name: string, quantity: int, unit: string)

  /** A saved recipe as the database holds it. */
  datatype StoredRecipe = StoredRecipe(
    id: string,
    name: string,
    description: string,
    ingredients: seq<StoredIngredient>,
    instructions: seq<string>,
    prepTime: int,
    cookTime: int,
    servings: int,
    difficulty: StoredDifficulty,
    tags: seq<string>,
    imageUrl: string,
    createdAt: Stamp)

  /** A grocery item as stored, and the same without its id (what a caller
      passes to `createGroceryList`). */
  datatype StoredGroceryItem = StoredGroceryItem(
    id: string, name: string, quantity: int, unit: string,
    category: string, checked: bool, addedAt: Stamp)

  datatype NewGroceryItem = NewGroceryItem(
    name: string, quantity: int, unit: string,
    category: string, checked: bool, addedAt: Stamp)

  datatype GroceryListDoc = GroceryListDoc(
    id: string, items: seq<StoredGroceryItem>, createdAt: Stamp, updatedAt: Stamp)

  // ---- getRecipesByTags: per-tag results merged, then deduplicated ----

  /** The per-tag results one after the other, in the order of `tags`. */
  function Merged(tags: seq<string>, results: string -> seq<StoredRecipe>): seq<StoredRecipe>
    decreases |tags|
  {
    if tags == [] then [] else Merged(tags[..|tags| - 1], results) + results(tags[|tags| - 1])
  }

  /** A recipe is in the merge exactly when some tag's query returned it, and
      the merge is as long as all the per-tag results together. */
  lemma {:induction false} MergedMembership(tags: seq<string>, results: string -> seq<StoredRecipe>, x: StoredRecipe)
    ensures x in Merged(tags, results) <==> exists i :: 0 <= i < |tags| && x in results(tags[i])
    decreases |tags|
  {
    if tags != [] {
      var p := tags[..|tags| - 1];
      MergedMembership(p, results, x);
      if exists i :: 0 <= i < |tags| && x in results(tags[i]) {
        var i :| 0 <= i < |tags| && x in results(tags[i]);
        if i < |p| { assert p[i] == tags[i]; }
      }
      if exists i :: 0 <= i < |p| && x in results(p[i]) {
        var i :| 0 <= i < |p| && x in results(p[i]);
        assert tags[i] == p[i];
      }
    }
  }

  /** A JavaScript `Map` as far as the dedup uses it: keys in insertion
      order and the current value of each. */
  datatype InsertionMap = InsertionMap(keys: seq<string>, values: map<string, StoredRecipe>)

  ghost predicate WellFormed(m: InsertionMap) {
    NoDups(m.keys) && (forall k :: k in m.values <==> k in m.keys)
  }

  /** `map.set(k, v)`: a new key goes to the end, an existing key keeps its
      place and takes the new value. */
  function MapSet(m: InsertionMap, k: string, v: StoredRecipe): (r: InsertionMap)
    requires WellFormed(m)
    ensures WellFormed(r)
  {
    if k in m.values then m.(values := m.values[k := v])
    else
      AppendNoDups(m.keys, k);
      InsertionMap(m.keys + [k], m.values[k := v])
  }

  /** `new Map(recipes.map(r => [r.id, r]))`: the entries set one by one. */
  function ById(s: seq<StoredRecipe>): (m: InsertionMap)
    ensures WellFormed(m)
    decreases |s|
  {
    if s == [] then InsertionMap([], map[])
    else MapSet(ById(s[..|s| - 1]), s[|s| - 1].id, s[|s| - 1])
  }

  /** `Array.from(map.values())`: the values in key order. */
  function ValuesInOrder(keys: seq<string>, values: map<string, StoredRecipe>): (r: seq<StoredRecipe>)
    requires forall k :: k in keys ==> k in values
    ensures |r| == |keys|
    ensures forall i :: 0 <= i < |keys| ==> r[i] == values[keys[i]]
    decreases |keys|
  {
    if keys == [] then [] else [values[keys[0]]] + ValuesInOrder(keys[1..], values)
  }

  /** The deduplicated recipes `getRecipesByTags` returns. */
  function Dedup(s: seq<StoredRecipe>): seq<StoredRecipe> {
    var m := ById(s);
    ValuesInOrder(m.keys, m.values)
  }

  /** `getRecipesByTags`: one query per tag, in order, each result pushed
      onto the list, then the dedup. */
  method GetRecipesByTags(tags: seq<string>, results: string -> seq<StoredRecipe>)
    returns (recipes: seq<StoredRecipe>)
    ensures recipes == Dedup(Merged(tags, results))
  {
    var merged: seq<StoredRecipe> := [];
    for i := 0 to |tags|
      invariant merged == Merged(tags[..i], results)
    {
      assert tags[..i + 1][..i] == tags[..i];
      merged := merged + results(tags[i]);
    }
    assert tags[..|tags|] == tags;
    recipes := Dedup(merged);
  }

  // ---- Reference meaning of the dedup ----

  /** The ids of a recipe list, position by position. */
  function Ids(s: seq<StoredRecipe>): (r: seq<string>)
    ensures |r| == |s|
    ensures forall i :: 0 <= i < |s| ==> r[i] == s[i].id
  {
    seq(|s|, i requires 0 <= i < |s| => s[i].id)
  }

  lemma IdsSnoc(p: seq<StoredRecipe>, x: StoredRecipe)
    ensures Ids(p + [x]) == Ids(p) + [x.id]
  {
  }

  /** The position of the first recipe with id `k`. */
  function FirstIndex(s: seq<StoredRecipe>, k: string): (i: nat)
    requires k in Ids(s)
    ensures i < |s| && s[i].id == k
    ensures forall j :: 0 <= j < i ==> s[j].id != k
    decreases |s|
  {
    if s[0].id == k then 0
    else
      assert k in Ids(s[1..]) by {
        var j :| 0 <= j < |s| && Ids(s)[j] == k;
        assert Ids(s[1..])[j - 1] == k;
      }
      1 + FirstIndex(s[1..], k)
  }

  /** The last recipe with id `k`. */
  function LastWithId(s: seq<StoredRecipe>, k: string): (x: StoredRecipe)
    requires k in Ids(s)
    ensures x in s && x.id == k
    decreases |s|
  {
    var last := s[|s| - 1];
    if last.id == k then last
    else
      var p := s[..|s| - 1];
      assert k in Ids(p) by {
        var j :| 0 <= j < |s| && Ids(s)[j] == k;
        assert Ids(p)[j] == k;
      }
      assert s == p + [last];
      LastWithId(p, k)
  }

  /** Appending a recipe does not move the first occurrence of an id already present. */
  lemma {:induction false} FirstIndexPrefix(p: seq<StoredRecipe>, last: StoredRecipe, k: string)
    requires k in Ids(p)
    ensures k in Ids(p + [last])
    ensures FirstIndex(p + [last], k) == FirstIndex(p, k)
    decreases |p|
  {
    IdsSnoc(p, last);
    if p[0].id != k {
      assert (p + [last])[1..] == p[1..] + [last];
      assert k in Ids(p[1..]) by {
        var j :| 0 <= j < |p| && Ids(p)[j] == k;
        assert Ids(p[1..])[j - 1] == k;
      }
      FirstIndexPrefix(p[1..], last, k);
    }
  }

  /** An id first seen in the appended recipe is first found at the end. */
  lemma FirstIndexLast(p: seq<StoredRecipe>, last: StoredRecipe)
    requires last.id !in Ids(p)
    ensures last.id in Ids(p + [last])
    ensures FirstIndex(p + [last], last.id) == |p|
  {
    IdsSnoc(p, last);
  }

  /** The keys are exactly the ids present; each maps to the last recipe with
      that id; and the keys come in order of the ids' first occurrence. */
  lemma ByIdMeaning(s: seq<StoredRecipe>)
    ensures forall k :: k in ById(s).keys <==> k in Ids(s)
    ensures forall k :: k in ById(s).keys ==> ById(s).values[k] == LastWithId(s, k)
    ensures forall i, j :: 0 <= i < j < |ById(s).keys| ==>
      FirstIndex(s, ById(s).keys[i]) < FirstIndex(s, ById(s).keys[j])
  {
    ByIdKeys(s);
    ByIdValues(s);
    ByIdOrder(s);
  }

  /** Setting the entries of a list with one more recipe sets that one last. */
  lemma ByIdSnoc(p: seq<StoredRecipe>, last: StoredRecipe)
    ensures ById(p + [last]) == MapSet(ById(p), last.id, last)
  {
    assert (p + [last])[..|p|] == p;
  }

  lemma {:induction false} ByIdKeys(s: seq<StoredRecipe>)
    ensures forall k :: k in ById(s).keys <==> k in Ids(s)
    decreases |s|
  {
    if s != [] {
      var p := s[..|s| - 1];
      var last := s[|s| - 1];
      assert s == p + [last];
      IdsSnoc(p, last);
      ByIdSnoc(p, last);
      ByIdKeys(p);
    }
  }

  lemma {:induction false} ByIdValues(s: seq<StoredRecipe>)
    ensures forall k :: k in ById(s).keys ==> k in Ids(s)
    ensures forall k :: k in ById(s).keys ==> ById(s).values[k] == LastWithId(s, k)
    decreases |s|
  {
    ByIdKeys(s);
    if s != [] {
      var p := s[..|s| - 1];
      var last := s[|s| - 1];
      assert s == p + [last];
      IdsSnoc(p, last);
      ByIdSnoc(p, last);
      ByIdKeys(p);
      ByIdValues(p);
      var m := ById(p);
      var r := ById(s);
      forall k | k in r.keys ensures r.values[k] == LastWithId(s, k) {
        if k != last.id {
          assert k in m.keys;
          assert LastWithId(s, k) == LastWithId(p, k);
        }
      }
    }
  }

  lemma {:induction false} ByIdOrder(s: seq<StoredRecipe>)
    ensures forall k :: k in ById(s).keys ==> k in Ids(s)
    ensures forall i, j :: 0 <= i < j < |ById(s).keys| ==>
      FirstIndex(s, ById(s).keys[i]) < FirstIndex(s, ById(s).keys[j])
    decreases |s|
  {
    ByIdKeys(s);
    if s != [] {
      var p := s[..|s| - 1];
      var last := s[|s| - 1];
      assert s == p + [last];
      ByIdSnoc(p, last);
      ByIdKeys(p);
      ByIdOrder(p);
      OrderSnoc(p, last, ById(p).keys, ById(s).keys);
    }
  }

  /** Keys in first-occurrence order stay so when a recipe is appended and
      its id, if new, is appended as a key. */
  lemma OrderSnoc(p: seq<StoredRecipe>, last: StoredRecipe, keys: seq<string>, keys': seq<string>)
    requires forall k :: k in keys ==> k in Ids(p)
    requires forall i, j :: 0 <= i < j < |keys| ==> FirstIndex(p, keys[i]) < FirstIndex(p, keys[j])
    requires keys' == keys || (keys' == keys + [last.id] && last.id !in Ids(p))
    ensures forall k :: k in keys' ==> k in Ids(p + [last])
    ensures forall i, j :: 0 <= i < j < |keys'| ==>
      FirstIndex(p + [last], keys'[i]) < FirstIndex(p + [last], keys'[j])
  {
    var s := p + [last];
    IdsSnoc(p, last);
    forall k | k in Ids(p) ensures FirstIndex(s, k) == FirstIndex(p, k) {
      FirstIndexPrefix(p, last, k);
    }
    if keys' != keys {
      FirstIndexLast(p, last);
    }
    forall i, j | 0 <= i < j < |keys'| ensures FirstIndex(s, keys'[i]) < FirstIndex(s, keys'[j]) {
      assert keys'[i] == keys[i] && keys[i] in keys;
      if j < |keys| {
        assert keys'[j] == keys[j] && keys[j] in keys;
      }
    }
  }

  /** There are no more keys than entries. */
  lemma {:induction false} KeysBound(s: seq<StoredRecipe>)
    ensures |ById(s).keys| <= |s|
    decreases |s|
  {
    if s != [] {
      KeysBound(s[..|s| - 1]);
    }
  }

  /** What `getRecipesByTags` promises about its output: the ids are
      pairwise distinct, the ids present are exactly those of the merged
      results, the output is no longer than the merge, the order is that of
      first occurrence and each id carries its last recipe. */
  lemma DedupMeaning(s: seq<StoredRecipe>)
    ensures |Dedup(s)| <= |s|
    ensures forall i, j :: 0 <= i < j < |Dedup(s)| ==> Dedup(s)[i].id != Dedup(s)[j].id
    ensures forall k :: k in Ids(Dedup(s)) <==> k in Ids(s)
    ensures forall i :: 0 <= i < |Dedup(s)| ==> Dedup(s)[i].id in Ids(s)
    ensures forall i :: 0 <= i < |Dedup(s)| ==> Dedup(s)[i] == LastWithId(s, Dedup(s)[i].id)
    ensures forall i, j :: 0 <= i < j < |Dedup(s)| ==>
      FirstIndex(s, Dedup(s)[i].id) < FirstIndex(s, Dedup(s)[j].id)
  {
    var m := ById(s);
    var r := Dedup(s);
    KeysBound(s);
    DedupEntries(s);
    assert Ids(r) == m.keys;
  }

  /** Entry `i` of the dedup is the last recipe with the `i`-th key. */
  lemma DedupEntries(s: seq<StoredRecipe>)
    ensures |Dedup(s)| == |ById(s).keys|
    ensures forall k :: k in ById(s).keys <==> k in Ids(s)
    ensures forall i, j :: 0 <= i < j < |ById(s).keys| ==>
      FirstIndex(s, ById(s).keys[i]) < FirstIndex(s, ById(s).keys[j])
    ensures forall i :: 0 <= i < |Dedup(s)| ==>
      Dedup(s)[i].id == ById(s).keys[i] && Dedup(s)[i] == LastWithId(s, ById(s).keys[i])
  {
    ByIdMeaning(s);
    var m := ById(s);
    var r := Dedup(s);
    forall i | 0 <= i < |r| ensures r[i].id == m.keys[i] && r[i] == LastWithId(s, m.keys[i]) {
      assert m.keys[i] in m.keys;
    }
  }

  /** Without repeated ids the dedup is the identity. */
  lemma DedupDistinct(s: seq<StoredRecipe>)
    requires forall i, j :: 0 <= i < j < |s| ==> s[i].id != s[j].id
    ensures Dedup(s) == s
  {
    DistinctKeys(s);
  }

  lemma {:induction false} DistinctKeys(s: seq<StoredRecipe>)
    requires forall i, j :: 0 <= i < j < |s| ==> s[i].id != s[j].id
    ensures ById(s).keys == Ids(s)
    ensures forall i :: 0 <= i < |s| ==> s[i].id in ById(s).values && ById(s).values[s[i].id] == s[i]
    decreases |s|
  {
    if s != [] {
      var p := s[..|s| - 1];
      var last := s[|s| - 1];
      assert s == p + [last];
      DistinctKeys(p);
      assert last.id !in Ids(p) by {
        forall k | 0 <= k < |p| ensures Ids(p)[k] != last.id {
          assert p[k] == s[k];
        }
      }
      DistinctStep(p, last);
    }
  }

  /** A recipe with a new id becomes the last key and its own entry. */
  lemma DistinctStep(p: seq<StoredRecipe>, last: StoredRecipe)
    requires ById(p).keys == Ids(p) && last.id !in Ids(p)
    requires forall i :: 0 <= i < |p| ==> p[i].id in ById(p).values && ById(p).values[p[i].id] == p[i]
    ensures ById(p + [last]).keys == Ids(p + [last])
    ensures forall i :: 0 <= i < |p + [last]| ==>
      (p + [last])[i].id in ById(p + [last]).values && ById(p + [last]).values[(p + [last])[i].id] == (p + [last])[i]
  {
    var s := p + [last];
    var m := ById(p);
    IdsSnoc(p, last);
    ByIdSnoc(p, last);
    assert last.id !in m.values;
    var r := ById(s);
    assert r == InsertionMap(m.keys + [last.id], m.values[last.id := last]);
    forall i | 0 <= i < |s| ensures s[i].id in r.values && r.values[s[i].id] == s[i] {
      if i < |p| {
        assert s[i] == p[i] && p[i].id != last.id;
        assert p[i].id in Ids(p);
      }
    }
  }

  // ---- getRecentMealPlans: docs.slice(0, limit) ----

  /** `slice(0, limit)` for a whole-number limit: a negative limit counts
      back from the end. */
  function SliceTo<T>(s: seq<T>, limit: int): (r: seq<T>)
    ensures limit >= 0 ==> |r| == Min(limit, |s|)
    ensures limit < 0 ==> |r| == (if |s| + limit > 0 then |s| + limit else 0)
    ensures r == s[..|r|]
  {
    if limit >= 0 then (if limit < |s| then s[..limit] else s)
    else if |s| + limit > 0 then s[..|s| + limit]
    else []
  }

  /** The limit `getRecentMealPlans` uses when none is given. */
  const DEFAULT_RECENT_LIMIT: int := 5

  /** `getRecentMealPlans`: the first `limit` plans of the newest-first
      query result. */
  function RecentMealPlans<T>(newestFirst: seq<T>, limit: int): (r: seq<T>)
    ensures limit >= 0 ==> |r| == Min(limit, |newestFirst|) && r == newestFirst[..|r|]
  {
    SliceTo(newestFirst, limit)
  }

  /** Called without a limit, the first five plans are returned, or all of
      them when there are fewer. */
  lemma RecentDefaultLimit<T>(newestFirst: seq<T>)
    ensures |newestFirst| >= 5 ==> RecentMealPlans(newestFirst, DEFAULT_RECENT_LIMIT) == newestFirst[..5]
    ensures |newestFirst| < 5 ==> RecentMealPlans(newestFirst, DEFAULT_RECENT_LIMIT) == newestFirst
  {
    var r := RecentMealPlans(newestFirst, DEFAULT_RECENT_LIMIT);
    assert |r| == Min(5, |newestFirst|);
  }

  /** A limit at least the number of plans returns them all. */
  lemma RecentAll<T>(newestFirst: seq<T>, limit: int)
    requires limit >= |newestFirst|
    ensures RecentMealPlans(newestFirst, limit) == newestFirst
  {
  }

  // ---- createGroceryList: items shaped for storage ----

  /** `{...item, id: crypto.randomUUID(), addedAt: serverTimestamp()}`, with
      the UUID drawn for position `i` given as `newId(i)`. */
  function StoreItems(items: seq<NewGroceryItem>, newId: nat -> string, from: nat): (r: seq<StoredGroceryItem>)
    ensures |r| == |items|
    ensures forall i :: 0 <= i < |r| ==>
      r[i].id == newId(from + i) && r[i].addedAt == ServerTimestamp
      && r[i].name == items[i].name && r[i].quantity == items[i].quantity
      && r[i].unit == items[i].unit && r[i].category == items[i].category
      && r[i].checked == items[i].checked
    decreases |items|
  {
    if items == [] then []
    else
      var x := items[0];
      [StoredGroceryItem(newId(from), x.name, x.quantity, x.unit, x.category, x.checked, ServerTimestamp)]
        + StoreItems(items[1..], newId, from + 1)
  }

  /** `createGroceryList` without the write: the list document it stores and
      returns. */
  function CreateGroceryList(listId: string, items: seq<NewGroceryItem>, newId: nat -> string): (r: GroceryListDoc)
    ensures r.id == listId && r.createdAt == ServerTimestamp && r.updatedAt == ServerTimestamp
    ensures |r.items| == |items|
    ensures forall i :: 0 <= i < |items| ==>
      r.items[i].name == items[i].name && r.items[i].quantity == items[i].quantity
      && r.items[i].unit == items[i].unit && r.items[i].category == items[i].category
      && r.items[i].checked == items[i].checked
      && r.items[i].id == newId(i) && r.items[i].addedAt == ServerTimestamp
  {
    GroceryListDoc(listId, StoreItems(items, newId, 0), ServerTimestamp, ServerTimestamp)
  }
}

/** The inventory upload endpoint (backend/routes/inventory.py) and its
    response model (backend/models/ingredient.py): a non-empty list of names
    wins, otherwise an attached photo yields a fixed placeholder list,
    otherwise the list is empty. */
module InventoryRoute {
  import opened Types

  /** `Ingredient`: the quantity defaults to the empty string. */
  datatype Ingredient = Ingredient(name: string, quantity: string)

  /** `IngredientList`. */
  datatype IngredientList = IngredientList(items: seq<Ingredient>)

  /** An uploaded file; its content is never read. */
  datatype Upload = Upload(filename: string)

  /** The names the placeholder photo branch reports. */
  const DETECTED_ITEMS: seq<string> := ["milk", "spinach", "cheese"]

  /** `[Ingredient(name=i) for i in names]`: one ingredient per name, in
      order, each with the default quantity. */
  function ToIngredients(names: seq<string>): (r: seq<Ingredient>)
    ensures |r| == |names|
    ensures forall i :: 0 <= i < |r| ==> r[i] == Ingredient(names[i], "")
    decreases |names|
  {
    if names == [] then [] else [Ingredient(names[0], "")] + ToIngredients(names[1..])
  }

  /** The names of a list of ingredients. */
  function Names(items: seq<Ingredient>): (r: seq<string>)
    ensures |r| == |items|
    ensures forall i :: 0 <= i < |r| ==> r[i] == items[i].name
    decreases |items|
  {
    if items == [] then [] else [items[0].name] + Names(items[1..])
  }

  /** Building the ingredients and reading their names back gives the names. */
  lemma NamesOfIngredients(names: seq<string>)
    ensures Names(ToIngredients(names)) == names
  {
  }

  /** Python's truthiness of the `ingredients` form field: None and [] are
      false. */
  predicate Given(ingredients: Option<seq<string>>) {
    ingredients.Some? && |ingredients.value| > 0
  }

  /** `upload_inventory`. */
  function UploadInventory(ingredients: Option<seq<string>>, file: Option<Upload>): (r: IngredientList)
    ensures Given(ingredients) ==> Names(r.items) == ingredients.value
    ensures !Given(ingredients) && file.Some? ==> Names(r.items) == DETECTED_ITEMS
    ensures !Given(ingredients) && file.None? ==> r.items == []
    ensures forall i :: 0 <= i < |r.items| ==> r.items[i].quantity == ""
  {
    if Given(ingredients) then
      NamesOfIngredients(ingredients.value);
      IngredientList(ToIngredients(ingredients.value))
    else if file.Some? then
      NamesOfIngredients(DETECTED_ITEMS);
      IngredientList(ToIngredients(DETECTED_ITEMS))
    else IngredientList([])
  }

  /** Submitted names take precedence: whatever file comes with them, the
      answer is the same. */
  lemma NamesWinOverFile(names: seq<string>, f1: Option<Upload>, f2: Option<Upload>)
    requires |names| > 0
    ensures UploadInventory(Some(names), f1) == UploadInventory(Some(names), f2)
  {
  }

  /** An empty list counts as no list: the file decides. */
  lemma EmptyListIsAbsent(file: Option<Upload>)
    ensures UploadInventory(Some([]), file) == UploadInventory(None, file)
  {
  }
}

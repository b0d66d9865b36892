/** The grocery list component (frontend/src/components/grocery/GroceryList.tsx):
    grouping of each view by category, and the plain-text copy of both views.
    The component never changes the items: its checkboxes and its clear button
    only call the page's handlers, modelled in GroceryPage. */
module GroceryList {
  import opened Types
  import opened Lists

  /** The test that puts an item in the group of `category`. */
  function InCategory(category: string): GroceryItem -> bool {
    (x: GroceryItem) => x.category == category
  }

  /** The items of one category, in input order. */
  function ItemsIn(items: seq<GroceryItem>, category: string): (r: seq<GroceryItem>)
    ensures forall x :: x in r <==> x in items && x.category == category
  {
    Filter(items, InCategory(category))
  }

  /** The categories present, each once, in order of first occurrence (the
      order in which the reduce inserts the keys). */
  function Categories(items: seq<GroceryItem>): (r: seq<string>)
    ensures NoDups(r)
    ensures forall c :: c in r <==> exists x :: x in items && x.category == c
    decreases |items|
  {
    if items == [] then []
    else
      var prefix := items[..|items| - 1];
      var last := items[|items| - 1];
      var cs := Categories(prefix);
      assert forall x :: x in items <==> x in prefix || x == last by {
        assert items == prefix + [last];
      }
      if last.category in cs then cs
      else
        AppendNoDups(cs, last.category);
        cs + [last.category]
  }

  /** One more item extends its own category's group and no other. */
  lemma ItemsInSnoc(items: seq<GroceryItem>, x: GroceryItem, c: string)
    ensures ItemsIn(items + [x], c) == ItemsIn(items, c) + (if x.category == c then [x] else [])
  {
    FilterSnoc(items, x, InCategory(c));
  }

  /** One more item adds its category at the end when it is new. */
  lemma CategoriesSnoc(items: seq<GroceryItem>, x: GroceryItem)
    ensures Categories(items + [x]) ==
      if x.category in Categories(items) then Categories(items) else Categories(items) + [x.category]
  {
    assert (items + [x])[..|items|] == items;
  }

  /** `order` lists the categories of `items` and `groups` maps each of them
      to its non-empty group. */
  ghost predicate Grouped(items: seq<GroceryItem>, order: seq<string>, groups: map<string, seq<GroceryItem>>) {
    && order == Categories(items)
    && (forall c :: c in groups <==> c in order)
    && (forall c :: c in groups ==> groups[c] == ItemsIn(items, c) && groups[c] != [])
  }

  /** One step of the reduce for a category already seen: the item is pushed
      onto its group. */
  lemma GroupStepSeen(seen: seq<GroceryItem>, item: GroceryItem,
                      order: seq<string>, groups: map<string, seq<GroceryItem>>)
    requires Grouped(seen, order, groups) && item.category in groups
    ensures Grouped(seen + [item], order, groups[item.category := groups[item.category] + [item]])
  {
    var c := item.category;
    var g := groups[c := groups[c] + [item]];
    CategoriesSnoc(seen, item);
    assert order == Categories(seen + [item]);
    forall k | k in g ensures g[k] == ItemsIn(seen + [item], k) && g[k] != [] {
      ItemsInSnoc(seen, item, k);
    }
  }

  /** One step of the reduce for a category seen for the first time: the key
      is appended to the order and its group holds just the item. */
  lemma GroupStepNew(seen: seq<GroceryItem>, item: GroceryItem,
                     order: seq<string>, groups: map<string, seq<GroceryItem>>)
    requires Grouped(seen, order, groups) && item.category !in groups
    ensures Grouped(seen + [item], order + [item.category], groups[item.category := [item]])
  {
    var c := item.category;
    var g := groups[c := [item]];
    var o := order + [c];
    CategoriesSnoc(seen, item);
    assert c !in order;
    assert o == Categories(seen + [item]);
    assert forall k :: k in g <==> k in o;
    forall k | k in g ensures g[k] == ItemsIn(seen + [item], k) && g[k] != [] {
      ItemsInSnoc(seen, item, k);
      if k == c {
        FilterNone(seen, InCategory(c));
      }
    }
  }

  /** `groupItemsByCategory`: the reduce that creates a key on first sight of a
      category and pushes each item onto its category's array. Returns the
      keys in insertion order and the groups. */
  method GroupByCategory(items: seq<GroceryItem>)
    returns (order: seq<string>, groups: map<string, seq<GroceryItem>>)
    ensures order == Categories(items)
    ensures forall c :: c in groups <==> c in order
    ensures forall c :: c in groups ==> groups[c] == ItemsIn(items, c) && groups[c] != []
  {
    order, groups := [], map[];
    var i := 0;
    while i < |items|
      invariant 0 <= i <= |items|
      invariant Grouped(items[..i], order, groups)
    {
      var item := items[i];
      var c := item.category;
      assert items[..i + 1] == items[..i] + [item];
      if c in groups {
        GroupStepSeen(items[..i], item, order, groups);
        groups := groups[c := groups[c] + [item]];
      } else {
        GroupStepNew(items[..i], item, order, groups);
        order := order + [c];
        groups := groups[c := [item]];
      }
      i := i + 1;
    }
    assert items[..i] == items;
  }

  /** Sum of the group sizes over a list of keys. */
  function TotalSize(keys: seq<string>, items: seq<GroceryItem>): nat
    decreases |keys|
  {
    if keys == [] then 0 else |ItemsIn(items, keys[0])| + TotalSize(keys[1..], items)
  }

  lemma {:induction false} TotalSizeSnocKey(keys: seq<string>, c: string, items: seq<GroceryItem>)
    ensures TotalSize(keys + [c], items) == TotalSize(keys, items) + |ItemsIn(items, c)|
    decreases |keys|
  {
    if keys == [] {
      assert [] + [c] == [c];
      assert [c][1..] == [];
    } else {
      assert (keys + [c])[1..] == keys[1..] + [c];
      TotalSizeSnocKey(keys[1..], c, items);
    }
  }

  lemma {:induction false} TotalSizeSnocItem(keys: seq<string>, items: seq<GroceryItem>, x: GroceryItem)
    requires NoDups(keys)
    ensures TotalSize(keys, items + [x]) == TotalSize(keys, items) + (if x.category in keys then 1 else 0)
    decreases |keys|
  {
    if keys != [] {
      FilterSnoc(items, x, InCategory(keys[0]));
      assert NoDups(keys[1..]) by {
        forall i, j | 0 <= i < j < |keys[1..]| ensures keys[1..][i] != keys[1..][j] {
          assert keys[1..][i] == keys[i + 1] && keys[1..][j] == keys[j + 1];
        }
      }
      TotalSizeSnocItem(keys[1..], items, x);
      if x.category == keys[0] {
        assert keys[0] !in keys[1..] by {
          forall k | 0 <= k < |keys[1..]| ensures keys[1..][k] != keys[0] {
            assert keys[1..][k] == keys[k + 1];
          }
        }
      } else {
        assert x.category in keys <==> x.category in keys[1..] by {
          assert keys == [keys[0]] + keys[1..];
        }
      }
    }
  }

  /** The group sizes add up to the number of items: every item lands in
      exactly one group. */
  lemma {:induction false} GroupSizesSum(items: seq<GroceryItem>)
    ensures TotalSize(Categories(items), items) == |items|
    decreases |items|
  {
    if items != [] {
      var prefix := items[..|items| - 1];
      var last := items[|items| - 1];
      assert items == prefix + [last];
      GroupSizesSum(prefix);
      var cs := Categories(prefix);
      TotalSizeSnocItem(cs, prefix, last);
      if last.category !in cs {
        TotalSizeSnocKey(cs, last.category, items);
        FilterSnoc(prefix, last, InCategory(last.category));
        FilterNone(prefix, InCategory(last.category));
        assert |ItemsIn(items, last.category)| == 1;
      }
    }
  }

  /** One line of the copied text per item: "- name". */
  function ItemLines(items: seq<GroceryItem>): (r: seq<string>)
    ensures |r| == |items|
    ensures forall i :: 0 <= i < |r| ==> r[i] == "- " + items[i].name
    decreases |items|
  {
    if items == [] then [] else ["- " + items[0].name] + ItemLines(items[1..])
  }

  const TITLE: string := "GROCERY LIST"
  const FRIDGE_HEADER: string := "Already in your fridge:"
  const SHOPPING_HEADER: string := "Items to buy:"

  /** The template of the copied text. */
  function Layout(title: string, fridgeHeader: string, fridgeText: string,
                  shoppingHeader: string, shoppingText: string): string
  {
    title + "\n\n" + fridgeHeader + "\n" + fridgeText + "\n\n" + shoppingHeader + "\n" + shoppingText
  }

  /** The text `handleCopyToClipboard` writes to the clipboard: the title, a
      blank line, the fridge header, the fridge lines, a blank line, the
      shopping header and the shopping lines, joined by line breaks. */
  function ClipboardText(fridgeItems: seq<GroceryItem>, shoppingItems: seq<GroceryItem>): string {
    Layout(TITLE, FRIDGE_HEADER, Join(ItemLines(fridgeItems), "\n"),
           SHOPPING_HEADER, Join(ItemLines(shoppingItems), "\n"))
  }

  /** The lines a section contributes; an empty section is one blank line. */
  function SectionLines(items: seq<GroceryItem>): seq<string> {
    if items == [] then [""] else ItemLines(items)
  }

  /** A section's text splits back into its lines. */
  lemma SectionRoundTrip(items: seq<GroceryItem>)
    requires forall x :: x in items ==> '\n' !in x.name
    ensures Split(Join(ItemLines(items), "\n"), '\n') == SectionLines(items)
  {
    forall i | 0 <= i < |ItemLines(items)| ensures '\n' !in ItemLines(items)[i] {
      assert items[i] in items;
    }
    SplitJoin(ItemLines(items), '\n');
  }

  /** Line by line, the template gives its headers, a blank line between
      the title and each section, and the lines of each section's text. */
  lemma {:induction false} SplitLayout(title: string, fridgeHeader: string, fridgeText: string,
                                       shoppingHeader: string, shoppingText: string)
    requires '\n' !in title && '\n' !in fridgeHeader && '\n' !in shoppingHeader
    ensures Split(Layout(title, fridgeHeader, fridgeText, shoppingHeader, shoppingText), '\n')
      == [title, "", fridgeHeader] + Split(fridgeText, '\n') + ["", shoppingHeader] + Split(shoppingText, '\n')
  {
    var c := '\n';
    var t5 := shoppingHeader + [c] + shoppingText;
    var t4 := [] + [c] + t5;
    var t3 := fridgeText + [c] + t4;
    var t2 := fridgeHeader + [c] + t3;
    var t1 := [] + [c] + t2;
    var t0 := title + [c] + t1;
    assert Layout(title, fridgeHeader, fridgeText, shoppingHeader, shoppingText) == t0;
    SplitTail(shoppingHeader, shoppingText);
    SplitConcat(fridgeText, c, t4);
    SplitHead(title, fridgeHeader, t3);
  }

  lemma SplitTail(shoppingHeader: string, shoppingText: string)
    requires '\n' !in shoppingHeader
    ensures Split([] + ['\n'] + (shoppingHeader + ['\n'] + shoppingText), '\n')
      == ["", shoppingHeader] + Split(shoppingText, '\n')
  {
    SplitFirstLine(shoppingHeader, '\n', shoppingText);
    SplitFirstLine([], '\n', shoppingHeader + ['\n'] + shoppingText);
  }

  lemma SplitHead(title: string, fridgeHeader: string, rest: string)
    requires '\n' !in title && '\n' !in fridgeHeader
    ensures Split(title + ['\n'] + ([] + ['\n'] + (fridgeHeader + ['\n'] + rest)), '\n')
      == [title, "", fridgeHeader] + Split(rest, '\n')
  {
    var c := '\n';
    SplitFirstLine(fridgeHeader, c, rest);
    SplitFirstLine([], c, fridgeHeader + [c] + rest);
    SplitFirstLine(title, c, [] + [c] + (fridgeHeader + [c] + rest));
  }

  /** Read back line by line, the copied text is the title, a blank line, the
      fridge header, one "- name" line per fridge item in order, a blank line,
      the shopping header and one line per shopping item in order (when no
      name contains a line break). */
  lemma ClipboardLines(fridgeItems: seq<GroceryItem>, shoppingItems: seq<GroceryItem>)
    requires forall x :: x in fridgeItems ==> '\n' !in x.name
    requires forall x :: x in shoppingItems ==> '\n' !in x.name
    ensures Split(ClipboardText(fridgeItems, shoppingItems), '\n') ==
      [TITLE, "", FRIDGE_HEADER] + SectionLines(fridgeItems)
      + ["", SHOPPING_HEADER] + SectionLines(shoppingItems)
  {
    SectionRoundTrip(fridgeItems);
    SectionRoundTrip(shoppingItems);
    SplitLayout(TITLE, FRIDGE_HEADER, Join(ItemLines(fridgeItems), "\n"),
                  SHOPPING_HEADER, Join(ItemLines(shoppingItems), "\n"));
  }
}

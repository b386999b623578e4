/**
 * The list logic inside the pantry and grocery handlers of the main window:
 * adding or updating an item by name ignoring case, removing the selected
 * entries, the text each entry is shown with, and adding a recipe's missing
 * ingredients to the grocery list.  The stored lists come in and the list to
 * store goes out; `None` means the handler stores nothing.
 */
module GroceryPantry {
  import opened Wrappers
  import opened Text
  import opened Models

  /** Two names are the same item when they agree after lower-casing. */
  predicate SameName(a: string, b: string) {
    Lower(a) == Lower(b)
  }

  function PantryName(p: PantryItem): string {
    p.name
  }

  function GroceryName(g: GroceryItem): string {
    g.name
  }

  /** The names of the items, in order: both lists are searched and filtered through their names. */
  function Names<T>(items: seq<T>, nameOf: T -> string): (r: seq<string>)
    ensures |r| == |items| && forall i :: 0 <= i < |items| ==> r[i] == nameOf(items[i])
  {
    seq(|items|, i requires 0 <= i < |items| => nameOf(items[i]))
  }

  /** The position of the first name that is the same as `name`, if any. */
  function FirstMatch(names: seq<string>, name: string): (r: Option<nat>)
    ensures r.Some? ==> r.value < |names| && SameName(names[r.value], name)
    ensures r.Some? ==> forall j :: 0 <= j < r.value ==> !SameName(names[j], name)
    ensures r.None? ==> forall j :: 0 <= j < |names| ==> !SameName(names[j], name)
    decreases |names|
  {
    if names == [] then None
    else if SameName(names[0], name) then Some(0)
    else match FirstMatch(names[1..], name)
      case Some(k) => Some(k + 1)
      case None => None
  }

  /** Position `k` holds the first name that is the same as `name`. */
  predicate FirstNamed(names: seq<string>, name: string, k: nat) {
    k < |names| && SameName(names[k], name) && forall j :: 0 <= j < k ==> !SameName(names[j], name)
  }

  /** `next((item for item in items if ...), None)`, as a search loop. */
  method FindByName(names: seq<string>, name: string) returns (found: Option<nat>)
    ensures found == FirstMatch(names, name)
  {
    var i := 0;
    while i < |names|
      invariant 0 <= i <= |names|
      invariant forall j :: 0 <= j < i ==> !SameName(names[j], name)
    {
      if Lower(names[i]) == Lower(name) {
        FirstMatchIsLeast(names, name, i);
        return Some(i);
      }
      i := i + 1;
    }
    FirstMatchIsLeast(names, name, |names|);
    found := None;
  }

  /** The first match is the only position with a match and none before it. */
  lemma {:induction false} FirstMatchIsLeast(names: seq<string>, name: string, k: nat)
    requires k <= |names|
    requires forall j :: 0 <= j < k ==> !SameName(names[j], name)
    requires k < |names| ==> SameName(names[k], name)
    ensures FirstMatch(names, name) == if k < |names| then Some(k) else None
  {
  }

  // ---------------------------------------------------------------------------
  // Adding or updating one item

  /** The pantry after entering `name` and `amount`: the first same-named item's amount changes, otherwise one item is appended. */
  function UpsertPantry(items: seq<PantryItem>, name: string, amount: string): seq<PantryItem> {
    match FirstMatch(Names(items, PantryName), name)
    case Some(k) => items[k := items[k].(amount := amount)]
    case None => items + [PantryItem(name, amount)]
  }

  /** As `UpsertPantry`; a new grocery item starts unchecked and an updated one keeps its mark. */
  function UpsertGrocery(items: seq<GroceryItem>, name: string, amount: string): seq<GroceryItem> {
    match FirstMatch(Names(items, GroceryName), name)
    case Some(k) => items[k := items[k].(amount := amount)]
    case None => items + [GroceryItem(name, amount, false)]
  }

  /** `add_pantry_item`: both fields stripped; an empty name stores nothing. */
  method AddPantryItem(pantry: seq<PantryItem>, nameText: string, amountText: string)
    returns (written: Option<seq<PantryItem>>)
    ensures Strip(nameText) == [] <==> written.None?
    ensures written.Some? ==> written.value == UpsertPantry(pantry, Strip(nameText), Strip(amountText))
  {
    var name := Strip(nameText);
    var amount := Strip(amountText);
    if name == [] {
      return None;
    }
    var items := pantry;
    var existing := FindByName(Names(items, PantryName), name);
    if existing.Some? {
      var k := existing.value;
      items := items[k := items[k].(amount := amount)];
    } else {
      items := items + [PantryItem(name, amount)];
    }
    written := Some(items);
  }

  /** `add_grocery_item`: as `add_pantry_item`, on the grocery list. */
  method AddGroceryItem(grocery: seq<GroceryItem>, nameText: string, amountText: string)
    returns (written: Option<seq<GroceryItem>>)
    ensures Strip(nameText) == [] <==> written.None?
    ensures written.Some? ==> written.value == UpsertGrocery(grocery, Strip(nameText), Strip(amountText))
  {
    var name := Strip(nameText);
    var amount := Strip(amountText);
    if name == [] {
      return None;
    }
    var items := grocery;
    var existing := FindByName(Names(items, GroceryName), name);
    if existing.Some? {
      var k := existing.value;
      items := items[k := items[k].(amount := amount)];
    } else {
      items := items + [GroceryItem(name, amount, false)];
    }
    written := Some(items);
  }

  /**
   * Upserting into the pantry sets the amount of the first same-named item
   * and changes nothing else, or appends the item when no name is the same.
   */
  lemma UpsertPantryEffect(items: seq<PantryItem>, name: string, amount: string)
    ensures var r := UpsertPantry(items, name, amount);
      && |items| <= |r| <= |items| + 1
      && (|r| == |items| <==> exists j :: 0 <= j < |items| && SameName(items[j].name, name))
      && (forall k: nat :: FirstNamed(Names(items, PantryName), name, k) ==>
            r == items[k := PantryItem(items[k].name, amount)])
      && ((forall j :: 0 <= j < |items| ==> !SameName(items[j].name, name)) ==>
            r == items + [PantryItem(name, amount)])
  {
    var names := Names(items, PantryName);
    forall k: nat | FirstNamed(names, name, k)
      ensures UpsertPantry(items, name, amount) == items[k := PantryItem(items[k].name, amount)]
    {
      FirstMatchIsLeast(names, name, k);
    }
    if forall j :: 0 <= j < |items| ==> !SameName(items[j].name, name) {
      FirstMatchIsLeast(names, name, |items|);
    }
  }

  /** The grocery counterpart: the updated item keeps its name and its checked mark. */
  lemma UpsertGroceryEffect(items: seq<GroceryItem>, name: string, amount: string)
    ensures var r := UpsertGrocery(items, name, amount);
      && |items| <= |r| <= |items| + 1
      && (|r| == |items| <==> exists j :: 0 <= j < |items| && SameName(items[j].name, name))
      && (forall k: nat :: FirstNamed(Names(items, GroceryName), name, k) ==>
            r == items[k := GroceryItem(items[k].name, amount, items[k].checked)])
      && ((forall j :: 0 <= j < |items| ==> !SameName(items[j].name, name)) ==>
            r == items + [GroceryItem(name, amount, false)])
  {
    var names := Names(items, GroceryName);
    forall k: nat | FirstNamed(names, name, k)
      ensures UpsertGrocery(items, name, amount) == items[k := GroceryItem(items[k].name, amount, items[k].checked)]
    {
      FirstMatchIsLeast(names, name, k);
    }
    if forall j :: 0 <= j < |items| ==> !SameName(items[j].name, name) {
      FirstMatchIsLeast(names, name, |items|);
    }
  }

  /** Entering the same item twice stores the same list as entering it once. */
  lemma {:induction false} UpsertPantryIdempotent(items: seq<PantryItem>, name: string, amount: string)
    ensures UpsertPantry(UpsertPantry(items, name, amount), name, amount) == UpsertPantry(items, name, amount)
  {
    var r := UpsertPantry(items, name, amount);
    match FirstMatch(Names(items, PantryName), name)
    case Some(k) =>
      FirstMatchIsLeast(Names(r, PantryName), name, k);
    case None =>
      FirstMatchIsLeast(Names(r, PantryName), name, |items|);
  }

  // ---------------------------------------------------------------------------
  // Display text and removal

  /** An entry's name, then " - " and the amount when there is one. */
  function EntryText(name: string, amount: string): string {
    name + (if amount != [] then " - " + amount else "")
  }

  function PantryDisplay(p: PantryItem): string {
    EntryText(p.name, p.amount)
  }

  /** A checked grocery item is shown with a leading "[x] ". */
  function GroceryDisplay(g: GroceryItem): string {
    (if g.checked then "[x] " else "") + EntryText(g.name, g.amount)
  }

  /** The name read back from a selected pantry entry: the text before the first " - ". */
  function SelectedPantryName(text: string): string {
    Before(text, " - ")
  }

  /** The name read back from a selected grocery entry, after dropping one leading "[x] ". */
  function SelectedGroceryName(text: string): string {
    Before(if StartsWith(text, "[x] ") then text[4..] else text, " - ")
  }

  /**
   * A name reads back from its entry whatever the amount exactly when no
   * " - " starts inside it, even one finishing in the separator that follows.
   */
  predicate ReadsBack(name: string) {
    !Contains(name + " -", " - ")
  }

  lemma EntryTextReadsBack(name: string, amount: string)
    requires ReadsBack(name)
    ensures Before(EntryText(name, amount), " - ") == name
  {
    var s := EntryText(name, amount);
    var t := name + " -";
    assert forall m :: 0 <= m < |s| && m < |t| ==> s[m] == t[m];
    forall j | 0 <= j < |name|
      ensures !OccursAt(s, " - ", j)
    {
      assert !OccursAt(t, " - ", j);
      if j + 3 <= |s| {
        assert s[j..j + 3] == t[j..j + 3];
      }
    }
    if amount != [] {
      assert s[|name|..|name| + 3] == " - ";
      BeforeAt(s, " - ", |name|);
    } else {
      forall j | 0 <= j
        ensures !OccursAt(s, " - ", j)
      {
      }
      BeforeAt(s, " - ", |name|);
    }
  }

  /** Cutting a pantry entry's text at " - " gives the item's name back. */
  lemma PantryDisplayReadsBack(p: PantryItem)
    requires ReadsBack(p.name)
    ensures SelectedPantryName(PantryDisplay(p)) == p.name
  {
    EntryTextReadsBack(p.name, p.amount);
  }

  /**
   * Dropping the mark and cutting at " - " gives a grocery item's name back,
   * unless an unchecked item's own text starts with "[x] ".
   */
  lemma GroceryDisplayReadsBack(g: GroceryItem)
    requires ReadsBack(g.name)
    requires g.checked || !StartsWith(g.name + " ", "[x] ")
    ensures SelectedGroceryName(GroceryDisplay(g)) == g.name
  {
    var e := EntryText(g.name, g.amount);
    EntryTextReadsBack(g.name, g.amount);
    if g.checked {
      assert GroceryDisplay(g)[4..] == e;
    } else {
      assert GroceryDisplay(g) == e;
      EntryTextUnmarked(g.name, g.amount);
    }
  }

  /** An entry whose name followed by a space does not start with "[x] " does not start with it either. */
  lemma EntryTextUnmarked(name: string, amount: string)
    requires !StartsWith(name + " ", "[x] ")
    ensures !StartsWith(EntryText(name, amount), "[x] ")
  {
    var e := EntryText(name, amount);
    var n := name;
    if |e| >= 4 {
      if |n| >= 4 {
        assert e[..4] == n[..4] == (n + " ")[..4];
      } else if |n| == 3 {
        assert e[..4] == n + " ";
      } else {
        assert e[|n| + 1] == '-' != "[x] "[|n| + 1];
      }
    }
  }

  /** A name holding " - " is cut short: selecting "salt - sea - 1 kg" removes items named "salt". */
  lemma SeparatorInNameCutsShort()
    ensures SelectedPantryName(PantryDisplay(PantryItem("salt - sea", "1 kg"))) == "salt"
  {
    var s := PantryDisplay(PantryItem("salt - sea", "1 kg"));
    assert s == "salt - sea - 1 kg";
    assert OccursAt(s, " - ", 4);
    forall j | 0 <= j < 4
      ensures !OccursAt(s, " - ", j)
    {
      assert s[j] != ' ';
      assert s[j..j + 3][0] == s[j];
    }
    BeforeAt(s, " - ", 4);
  }

  /** A name ending in " -" is cut short once an amount follows it. */
  lemma TrailingDashCutsShort()
    ensures SelectedPantryName(PantryDisplay(PantryItem("a -", "1"))) == "a"
  {
    var s := PantryDisplay(PantryItem("a -", "1"));
    assert s == "a - - 1";
    assert OccursAt(s, " - ", 1);
    assert !OccursAt(s, " - ", 0) by { assert s[0] != ' '; }
    BeforeAt(s, " - ", 1);
  }

  /** An item is kept when its name is the same as none of the removed names. */
  predicate Unmatched(name: string, removed: seq<string>) {
    forall i :: 0 <= i < |removed| ==> !SameName(name, removed[i])
  }

  /** The items kept, in order, after removing every item named like one of `removed`. */
  function Kept<T(==)>(items: seq<T>, nameOf: T -> string, removed: seq<string>): (r: seq<T>)
    ensures forall x :: x in r ==> x in items && Unmatched(nameOf(x), removed)
    ensures forall x :: x in items && Unmatched(nameOf(x), removed) ==> x in r
    ensures |r| <= |items|
    decreases |items|
  {
    if items == [] then []
    else (if Unmatched(nameOf(items[0]), removed) then [items[0]] else []) + Kept(items[1..], nameOf, removed)
  }

  /** `r` lists the elements of `xs` found at the strictly increasing positions `ix`. */
  predicate Picks<T(==)>(r: seq<T>, xs: seq<T>, ix: seq<nat>) {
    && |ix| == |r|
    && (forall k :: 0 <= k < |ix| ==> ix[k] < |xs| && r[k] == xs[ix[k]])
    && (forall k, l :: 0 <= k < l < |ix| ==> ix[k] < ix[l])
  }

  function Shifted(ix: seq<nat>): (r: seq<nat>)
    ensures |r| == |ix| && forall k :: 0 <= k < |ix| ==> r[k] == ix[k] + 1
  {
    seq(|ix|, k requires 0 <= k < |ix| => ix[k] + 1)
  }

  /** Positions in the tail of `xs` are positions in `xs` one further on. */
  lemma PicksFromTail<T>(r: seq<T>, xs: seq<T>, ix: seq<nat>)
    requires xs != [] && Picks(r, xs[1..], ix)
    ensures Picks(r, xs, Shifted(ix))
    ensures Picks([xs[0]] + r, xs, [0] + Shifted(ix))
  {
    var sh := Shifted(ix);
    forall k | 0 <= k < |ix|
      ensures sh[k] < |xs| && r[k] == xs[sh[k]]
    {
      assert r[k] == xs[1..][ix[k]];
    }
    var ix0 := [0] + sh;
    var r0 := [xs[0]] + r;
    forall k | 0 < k < |ix0|
      ensures ix0[k] < |xs| && r0[k] == xs[ix0[k]] && ix0[0] < ix0[k]
    {
      assert ix0[k] == sh[k - 1] && r0[k] == r[k - 1];
    }
  }

  /**
   * `ix` lists, in increasing order, the positions of the items removal keeps,
   * and holds every position whose item no removed name matches.
   */
  predicate KeptAt<T(==)>(items: seq<T>, nameOf: T -> string, removed: seq<string>, ix: seq<nat>) {
    && Picks(Kept(items, nameOf, removed), items, ix)
    && forall j: nat :: j < |items| && Unmatched(nameOf(items[j]), removed) ==> j in ix
  }

  /**
   * Removal keeps exactly the items whose name no removed name matches: at
   * increasing positions, so in their order, and every such position once.
   */
  lemma {:induction false} KeptInOrder<T>(items: seq<T>, nameOf: T -> string, removed: seq<string>)
    ensures exists ix :: KeptAt(items, nameOf, removed, ix)
    decreases |items|
  {
    if items == [] {
      assert KeptAt(items, nameOf, removed, []);
    } else {
      KeptInOrder(items[1..], nameOf, removed);
      var ix' :| KeptAt(items[1..], nameOf, removed, ix');
      KeptAtFromTail(items, nameOf, removed, ix');
    }
  }

  /** The kept positions of the tail, one further on, after 0 when the head is kept. */
  lemma KeptAtFromTail<T>(items: seq<T>, nameOf: T -> string, removed: seq<string>, ix': seq<nat>)
    requires items != [] && KeptAt(items[1..], nameOf, removed, ix')
    ensures KeptAt(items, nameOf, removed, if Unmatched(nameOf(items[0]), removed) then [0] + Shifted(ix') else Shifted(ix'))
  {
    var r := Kept(items, nameOf, removed);
    var rest := Kept(items[1..], nameOf, removed);
    PicksFromTail(rest, items, ix');
    var keep := Unmatched(nameOf(items[0]), removed);
    var ix := if keep then [0] + Shifted(ix') else Shifted(ix');
    if keep {
      assert r == [items[0]] + rest;
    } else {
      assert r == rest;
    }
    assert Picks(r, items, ix);
    KeptCoveredFromTail(items, nameOf, removed, ix', ix);
  }

  /** Each kept position after the first is one past a kept position of the tail. */
  lemma KeptCoveredFromTail<T>(items: seq<T>, nameOf: T -> string, removed: seq<string>, ix': seq<nat>, ix: seq<nat>)
    requires items != []
    requires forall j: nat :: j < |items| - 1 && Unmatched(nameOf(items[1..][j]), removed) ==> j in ix'
    requires ix == if Unmatched(nameOf(items[0]), removed) then [0] + Shifted(ix') else Shifted(ix')
    ensures forall j: nat :: j < |items| && Unmatched(nameOf(items[j]), removed) ==> j in ix
  {
    var sh := Shifted(ix');
    forall j: nat | j < |items| && Unmatched(nameOf(items[j]), removed)
      ensures j in ix
    {
      if j > 0 {
        assert items[1..][j - 1] == items[j];
        var k :| 0 <= k < |ix'| && ix'[k] == j - 1;
        assert sh[k] == j;
      }
    }
  }

  /** Filtering by one more name is filtering by the longer list of names. */
  lemma {:induction false} KeptStep<T>(items: seq<T>, nameOf: T -> string, removed: seq<string>, name: string)
    ensures Kept(Kept(items, nameOf, removed), nameOf, [name]) == Kept(items, nameOf, removed + [name])
    decreases |items|
  {
    if items != [] {
      var x := items[0];
      UnmatchedAppend(nameOf(x), removed, name);
      KeptStep(items[1..], nameOf, removed, name);
      var rest := Kept(items[1..], nameOf, removed);
      var after := Kept(items[1..], nameOf, removed + [name]);
      assert Kept(items, nameOf, removed + [name]) == (if Unmatched(nameOf(x), removed + [name]) then [x] else []) + after;
      if Unmatched(nameOf(x), removed) {
        var kept := [x] + rest;
        assert kept[0] == x && kept[1..] == rest;
        assert Kept(items, nameOf, removed) == kept;
        assert Kept(kept, nameOf, [name]) == (if Unmatched(nameOf(x), [name]) then [x] else []) + Kept(rest, nameOf, [name]);
      } else {
        assert Kept(items, nameOf, removed) == rest;
      }
    }
  }

  lemma UnmatchedAppend(x: string, removed: seq<string>, name: string)
    ensures Unmatched(x, removed + [name]) <==> Unmatched(x, removed) && !SameName(x, name)
    ensures Unmatched(x, [name]) <==> !SameName(x, name)
  {
    assert forall i :: 0 <= i < |removed| ==> (removed + [name])[i] == removed[i];
    assert (removed + [name])[|removed|] == name;
  }

  function SelectedPantryNames(selected: seq<string>): (r: seq<string>)
    ensures |r| == |selected| && forall i :: 0 <= i < |selected| ==> r[i] == SelectedPantryName(selected[i])
  {
    seq(|selected|, i requires 0 <= i < |selected| => SelectedPantryName(selected[i]))
  }

  function SelectedGroceryNames(selected: seq<string>): (r: seq<string>)
    ensures |r| == |selected| && forall i :: 0 <= i < |selected| ==> r[i] == SelectedGroceryName(selected[i])
  {
    seq(|selected|, i requires 0 <= i < |selected| => SelectedGroceryName(selected[i]))
  }

  /** `remove_pantry_item`: one filtering pass per selected entry; nothing is stored without a selection. */
  method RemovePantryItems(pantry: seq<PantryItem>, selected: seq<string>)
    returns (written: Option<seq<PantryItem>>)
    ensures selected == [] <==> written.None?
    ensures written.Some? ==> written.value == Kept(pantry, PantryName, SelectedPantryNames(selected))
  {
    if selected == [] {
      return None;
    }
    var items := pantry;
    var i := 0;
    assert SelectedPantryNames(selected)[..0] == [];
    assert Kept(pantry, PantryName, []) == pantry by { KeptNothingRemoved(pantry, PantryName); }
    while i < |selected|
      invariant 0 <= i <= |selected|
      invariant items == Kept(pantry, PantryName, SelectedPantryNames(selected)[..i])
    {
      var name := SelectedPantryName(selected[i]);
      KeptStep(pantry, PantryName, SelectedPantryNames(selected)[..i], name);
      assert SelectedPantryNames(selected)[..i + 1] == SelectedPantryNames(selected)[..i] + [name];
      items := Kept(items, PantryName, [name]);
      i := i + 1;
    }
    assert SelectedPantryNames(selected)[..i] == SelectedPantryNames(selected);
    written := Some(items);
  }

  /** `remove_grocery_item`: as for the pantry, reading names past a leading "[x] ". */
  method RemoveGroceryItems(grocery: seq<GroceryItem>, selected: seq<string>)
    returns (written: Option<seq<GroceryItem>>)
    ensures selected == [] <==> written.None?
    ensures written.Some? ==> written.value == Kept(grocery, GroceryName, SelectedGroceryNames(selected))
  {
    if selected == [] {
      return None;
    }
    var items := grocery;
    var i := 0;
    assert SelectedGroceryNames(selected)[..0] == [];
    assert Kept(grocery, GroceryName, []) == grocery by { KeptNothingRemoved(grocery, GroceryName); }
    while i < |selected|
      invariant 0 <= i <= |selected|
      invariant items == Kept(grocery, GroceryName, SelectedGroceryNames(selected)[..i])
    {
      var name := SelectedGroceryName(selected[i]);
      KeptStep(grocery, GroceryName, SelectedGroceryNames(selected)[..i], name);
      assert SelectedGroceryNames(selected)[..i + 1] == SelectedGroceryNames(selected)[..i] + [name];
      items := Kept(items, GroceryName, [name]);
      i := i + 1;
    }
    assert SelectedGroceryNames(selected)[..i] == SelectedGroceryNames(selected);
    written := Some(items);
  }

  /** With no removed names every item is kept. */
  lemma {:induction false} KeptNothingRemoved<T>(items: seq<T>, nameOf: T -> string)
    ensures Kept(items, nameOf, []) == items
    decreases |items|
  {
    if items != [] {
      KeptNothingRemoved(items[1..], nameOf);
      assert items == [items[0]] + items[1..];
    }
  }

  // ---------------------------------------------------------------------------
  // Adding a recipe's ingredients to the grocery list

  /** The ingredient is in the pantry: its lower-cased name is one of the pantry's lower-cased names. */
  predicate InPantry(pantry: seq<PantryItem>, name: string) {
    exists j :: 0 <= j < |pantry| && SameName(pantry[j].name, name)
  }

  /** No item before position `k` has the same name as the item at `k`. */
  predicate FirstOfName(items: seq<GroceryItem>, k: nat)
    requires k < |items|
  {
    forall j :: 0 <= j < k ==> !SameName(items[j].name, items[k].name)
  }

  /**
   * The grocery list after walking the ingredients in order: an ingredient
   * is appended, unchecked, unless the pantry has it or the list built so
   * far already holds an item of that name.
   */
  function Merged(grocery: seq<GroceryItem>, pantry: seq<PantryItem>, ingredients: seq<Ingredient>): (r: seq<GroceryItem>)
    ensures |grocery| <= |r| && r[..|grocery|] == grocery
    ensures forall k :: |grocery| <= k < |r| ==>
      !r[k].checked && !InPantry(pantry, r[k].name) && FirstOfName(r, k)
    decreases |ingredients|
  {
    if ingredients == [] then grocery
    else
      var ing := ingredients[0];
      if InPantry(pantry, ing.name) || FirstMatch(Names(grocery, GroceryName), ing.name).Some? then
        Merged(grocery, pantry, ingredients[1..])
      else
        var next := grocery + [AsGroceryItem(ing)];
        var r := Merged(next, pantry, ingredients[1..]);
        assert r[..|grocery|] == next[..|grocery|];
        assert FirstOfName(r, |grocery|) by {
          forall j | 0 <= j < |grocery| ensures !SameName(r[j].name, r[|grocery|].name) {
            assert r[j] == grocery[j];
            assert Names(grocery, GroceryName)[j] == grocery[j].name;
          }
        }
        r
  }

  /** The grocery item an ingredient becomes: its name and amount, unchecked. */
  function AsGroceryItem(ing: Ingredient): GroceryItem {
    GroceryItem(ing.name, ing.amount, false)
  }

  function AsGroceryItems(ingredients: seq<Ingredient>): (r: seq<GroceryItem>)
    ensures |r| == |ingredients| && forall i :: 0 <= i < |ingredients| ==> r[i] == AsGroceryItem(ingredients[i])
  {
    seq(|ingredients|, i requires 0 <= i < |ingredients| => AsGroceryItem(ingredients[i]))
  }

  /**
   * What the merge appends comes from the recipe: each appended item is an
   * ingredient with its amount, unchecked, and they follow the recipe's order.
   */
  lemma {:induction false} MergedFromIngredients(grocery: seq<GroceryItem>, pantry: seq<PantryItem>, ingredients: seq<Ingredient>)
    ensures exists ix :: Picks(Merged(grocery, pantry, ingredients)[|grocery|..], AsGroceryItems(ingredients), ix)
    decreases |ingredients|
  {
    var r := Merged(grocery, pantry, ingredients);
    var xs := AsGroceryItems(ingredients);
    if ingredients == [] {
      assert Picks(r[|grocery|..], xs, []);
    } else {
      var ing := ingredients[0];
      assert xs[1..] == AsGroceryItems(ingredients[1..]);
      if InPantry(pantry, ing.name) || FirstMatch(Names(grocery, GroceryName), ing.name).Some? {
        MergedFromIngredients(grocery, pantry, ingredients[1..]);
        var ix :| Picks(r[|grocery|..], xs[1..], ix);
        PicksFromTail(r[|grocery|..], xs, ix);
      } else {
        var next := grocery + [AsGroceryItem(ing)];
        MergedFromIngredients(next, pantry, ingredients[1..]);
        var ix :| Picks(r[|next|..], xs[1..], ix);
        PicksFromTail(r[|next|..], xs, ix);
        AppendedSuffix(grocery, AsGroceryItem(ing), r);
      }
    }
  }

  /** A list that starts with `grocery + [g]` continues past `grocery` with `g`. */
  lemma AppendedSuffix(grocery: seq<GroceryItem>, g: GroceryItem, r: seq<GroceryItem>)
    requires |grocery| < |r| && r[..|grocery| + 1] == grocery + [g]
    ensures r[|grocery|..] == [g] + r[|grocery| + 1..]
  {
    assert r[|grocery|] == (grocery + [g])[|grocery|];
  }

  /** Some item of the list has the same name. */
  predicate Listed(items: seq<GroceryItem>, name: string) {
    exists k :: 0 <= k < |items| && SameName(items[k].name, name)
  }

  /** After the merge, every ingredient the pantry lacks has an item of its name in the grocery list. */
  lemma {:induction false} MergedCoversIngredients(grocery: seq<GroceryItem>, pantry: seq<PantryItem>, ingredients: seq<Ingredient>)
    ensures forall i :: 0 <= i < |ingredients| && !InPantry(pantry, ingredients[i].name) ==>
      Listed(Merged(grocery, pantry, ingredients), ingredients[i].name)
    decreases |ingredients|
  {
    if ingredients != [] {
      var ing := ingredients[0];
      var r := Merged(grocery, pantry, ingredients);
      var skip := InPantry(pantry, ing.name) || FirstMatch(Names(grocery, GroceryName), ing.name).Some?;
      var next := if skip then grocery else grocery + [GroceryItem(ing.name, ing.amount, false)];
      assert r == Merged(next, pantry, ingredients[1..]);
      MergedCoversIngredients(next, pantry, ingredients[1..]);
      if !InPantry(pantry, ing.name) {
        var m := FirstMatch(Names(grocery, GroceryName), ing.name);
        var k := if m.Some? then m.value else |grocery|;
        assert k < |next| && SameName(next[k].name, ing.name);
        assert r[..|next|] == next;
        assert r[k] == next[k];
      }
      forall i | 1 <= i < |ingredients| && !InPantry(pantry, ingredients[i].name)
        ensures Listed(r, ingredients[i].name)
      {
        assert ingredients[i] == ingredients[1..][i - 1];
      }
    }
  }

  /** `add_to_grocery_list`: no current recipe stores nothing; otherwise the merged list and the number of items added. */
  method AddToGroceryList(recipe: Option<Recipe>, grocery: seq<GroceryItem>, pantry: seq<PantryItem>)
    returns (written: Option<seq<GroceryItem>>, added: nat)
    ensures recipe.None? <==> written.None?
    ensures recipe.Some? ==> written == Some(Merged(grocery, pantry, recipe.value.ingredients))
    ensures written.Some? ==> added == |written.value| - |grocery|
    ensures recipe.None? ==> added == 0
  {
    if recipe.None? {
      return None, 0;
    }
    var ingredients := recipe.value.ingredients;
    var items := grocery;
    added := 0;
    var i := 0;
    while i < |ingredients|
      invariant 0 <= i <= |ingredients|
      invariant Merged(items, pantry, ingredients[i..]) == Merged(grocery, pantry, ingredients)
      invariant added == |items| - |grocery|
    {
      var ing := ingredients[i];
      assert ingredients[i..][0] == ing && ingredients[i..][1..] == ingredients[i + 1..];
      if InPantry(pantry, ing.name) {
        i := i + 1;
        continue;
      }
      var existing := FindByName(Names(items, GroceryName), ing.name);
      if existing.Some? {
        i := i + 1;
        continue;
      }
      items := items + [GroceryItem(ing.name, ing.amount, false)];
      added := added + 1;
      i := i + 1;
    }
    assert ingredients[i..] == [];
    written := Some(items);
  }
}

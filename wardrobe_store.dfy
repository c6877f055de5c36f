/**
 * The in-memory wardrobe: a list of item records seeded with two items,
 * read whole by `get_all_items` and grown in place by `add_item`, which
 * numbers each new item after the current length of the list.
 */
module WardrobeStore {
  import opened Wrappers

  /** One record of the list: its id, name, category and status. */
  datatype StoredItem = StoredItem(id: int, name: string, category: string, status: string)

  /** The two records the list starts with. */
  const Seed: seq<StoredItem> := [
    StoredItem(1, "Blue Shirt", "Casual", "Clean"),
    StoredItem(2, "Black Jeans", "Casual", "Needs Wash")
  ]

  /** Python's truthiness for an optional text argument: `None` and "" are falsy. */
  predicate Given(v: Option<string>)
  {
    v.Some? && v.value != ""
  }

  /** `v or d`. */
  function OrDefault(v: Option<string>, d: string): (r: string)
    ensures Given(v) ==> r == v.value
    ensures !Given(v) ==> r == d
  {
    if Given(v) then v.value else d
  }

  /**
   * The list after `add_item(name, category, status)`: unchanged for a falsy
   * name; otherwise one more record, numbered after the old length, with
   * "Other" and "Clean" standing in for a falsy category and status.
   */
  function Added(s: seq<StoredItem>, name: Option<string>, category: Option<string>, status: Option<string>)
    : (r: seq<StoredItem>)
    ensures !Given(name) ==> r == s
    ensures Given(name) ==> |r| == |s| + 1 && r[..|s|] == s
    ensures Given(name) ==> r[|s|].id == |s| + 1 && r[|s|].name == name.value
    ensures Given(name) ==> r[|s|].category == (if Given(category) then category.value else "Other")
    ensures Given(name) ==> r[|s|].status == (if Given(status) then status.value else "Clean")
  {
    if !Given(name) then s
    else s + [StoredItem(|s| + 1, name.value, OrDefault(category, "Other"), OrDefault(status, "Clean"))]
  }

  /** The ids are 1, 2, ..., n in list order. */
  predicate Sequential(s: seq<StoredItem>)
  {
    forall i :: 0 <= i < |s| ==> s[i].id == i + 1
  }

  lemma SeedSequential()
    ensures Sequential(Seed)
  {
  }

  /** Adding an item keeps the ids numbered 1 to n in order, so no two items share an id. */
  lemma AddedSequential(s: seq<StoredItem>, name: Option<string>, category: Option<string>, status: Option<string>)
    requires Sequential(s)
    ensures Sequential(Added(s, name, category, status))
    ensures forall i, j :: 0 <= i < j < |Added(s, name, category, status)| ==>
      Added(s, name, category, status)[i].id != Added(s, name, category, status)[j].id
  {
    var r := Added(s, name, category, status);
    forall i | 0 <= i < |r|
      ensures r[i].id == i + 1
    {
      if i < |s| {
        assert r[i] == r[..|s|][i];
      }
    }
  }

  /** The module-level list and the two functions that use it. */
  class Wardrobe {
    var items: seq<StoredItem>

    /** The list as the module defines it. */
    constructor ()
      ensures items == Seed
    {
      items := Seed;
    }

    /** `get_all_items`: the list as it stands. */
    method GetAllItems() returns (r: seq<StoredItem>)
      ensures r == items
    {
      r := items;
    }

    /** `add_item`: appends the new record in place, or does nothing for a falsy name. */
    method AddItem(name: Option<string>, category: Option<string>, status: Option<string>)
      modifies this
      ensures items == Added(old(items), name, category, status)
    {
      if name.None? || name.value == "" {
        return;
      }
      var newItem := StoredItem(|items| + 1, name.value,
                                if category.Some? && category.value != "" then category.value else "Other",
                                if status.Some? && status.value != "" then status.value else "Clean");
      items := items + [newItem];
    }
  }

  /** Starting from the seed, any sequence of additions leaves the ids numbered 1 to n. */
  lemma {:induction false} AdditionsSequential(adds: seq<(Option<string>, Option<string>, Option<string>)>)
    ensures Sequential(AddAll(Seed, adds))
    decreases |adds|
  {
    if adds == [] {
      SeedSequential();
    } else {
      var prefix := adds[..|adds| - 1];
      var last := adds[|adds| - 1];
      AdditionsSequential(prefix);
      AddedSequential(AddAll(Seed, prefix), last.0, last.1, last.2);
    }
  }

  /** The list after a series of `add_item` calls, in order. */
  function AddAll(s: seq<StoredItem>, adds: seq<(Option<string>, Option<string>, Option<string>)>): (r: seq<StoredItem>)
    ensures |r| >= |s|
    decreases |adds|
  {
    if adds == [] then s
    else
      var last := adds[|adds| - 1];
      Added(AddAll(s, adds[..|adds| - 1]), last.0, last.1, last.2)
  }
}

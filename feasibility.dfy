/**
 * Input preparation and the feasibility check that runs before any
 * generation call: occasion normalisation, the exclusion set, the clean /
 * occasion / exclusion filters that build the offered pool, the missing-parts
 * rule, and the per-category tally used in the "try another occasion" hint.
 */
module Feasibility {
  import opened Wrappers
  import opened Text
  import opened JsonValue
  import opened Seqs
  import opened Domain

  // ---------------------------------------------------------------- occasion

  /** `(occasion or '').strip()`, with the legacy "Business" label (any case) mapped to "Formal". */
  function NormaliseOccasion(occasion: string): (r: string)
    ensures Lower(r) != "business"
    ensures r == [] || (!In(r[0], PySpace) && !In(r[|r| - 1], PySpace))
  {
    StripBorders(occasion, PySpace);
    var s := Strip(occasion, PySpace);
    if Lower(s) == "business" then "Formal" else s
  }

  /** Normalising a normalised occasion changes nothing. */
  lemma NormaliseOccasionIdempotent(occasion: string)
    ensures NormaliseOccasion(NormaliseOccasion(occasion)) == NormaliseOccasion(occasion)
  {
    var r := NormaliseOccasion(occasion);
    StripNoop(r, PySpace);
  }

  /** "business" in any case and with any surrounding whitespace becomes "Formal". */
  lemma BusinessIsFormal(occasion: string)
    requires Lower(Strip(occasion, PySpace)) == "business"
    ensures NormaliseOccasion(occasion) == "Formal"
  {
  }

  // ---------------------------------------------------------------- exclusions

  /** The ids `int()` accepts among `xs`, folded left to right as the loop does. */
  function IdsOf(xs: seq<Json>): set<int>
    decreases |xs|
  {
    if xs == [] then {}
    else
      var last := ToInt(xs[|xs| - 1]);
      IdsOf(xs[..|xs| - 1]) + (if last.Some? then {last.value} else {})
  }

  /** The exclusion set: the convertible elements of a list; anything else excludes nothing. */
  function ExcludedIds(excludeIds: Json): set<int>
  {
    if excludeIds.JArr? then IdsOf(excludeIds.elems) else {}
  }

  /** An id is excluded exactly when some element of the list converts to it. */
  lemma {:induction false} IdsOfMembers(xs: seq<Json>)
    ensures forall n :: n in IdsOf(xs) <==> exists k :: 0 <= k < |xs| && ToInt(xs[k]) == Some(n)
    decreases |xs|
  {
    if xs != [] {
      var init := xs[..|xs| - 1];
      IdsOfMembers(init);
      forall n
        ensures n in IdsOf(xs) <==> exists k :: 0 <= k < |xs| && ToInt(xs[k]) == Some(n)
      {
        if n in IdsOf(init) {
          var k :| 0 <= k < |init| && ToInt(init[k]) == Some(n);
          assert xs[k] == init[k];
        }
        if exists k :: 0 <= k < |xs| && ToInt(xs[k]) == Some(n) {
          var k :| 0 <= k < |xs| && ToInt(xs[k]) == Some(n);
          if k < |init| {
            assert init[k] == xs[k];
          }
        }
      }
    }
  }

  /** The `for x in exclude_ids` loop: add every element `int()` accepts, skip the rest. */
  method ExcludeSet(excludeIds: Json) returns (s: set<int>)
    ensures s == ExcludedIds(excludeIds)
  {
    s := {};
    if excludeIds.JArr? {
      var xs := excludeIds.elems;
      var i := 0;
      while i < |xs|
        invariant 0 <= i <= |xs|
        invariant s == IdsOf(xs[..i])
      {
        assert xs[..i + 1][..i] == xs[..i];
        var n := ToInt(xs[i]);
        if n.Some? {
          s := s + {n.value};
        }
        i := i + 1;
      }
      assert xs[..|xs|] == xs;
    }
  }

  // ---------------------------------------------------------------- the offered pool

  /** The stripped, lower-cased category equals the lower-cased occasion label. */
  predicate InCategory(i: WardrobeItem, chosen: string)
  {
    Lower(Strip(i.category, PySpace)) == Lower(chosen)
  }

  predicate Excluded(i: WardrobeItem, excl: set<int>)
  {
    i.id.Some? && i.id.value in excl
  }

  function CleanItems(items: seq<WardrobeItem>): seq<WardrobeItem>
  {
    Filter(items, IsClean)
  }

  /** The clean items of the occasion's category (all of them for no occasion), minus the excluded ids. */
  function Pool(items: seq<WardrobeItem>, occasion: string, excl: set<int>): seq<WardrobeItem>
  {
    var byOccasion := OccasionItems(items, occasion);
    if excl != {} then Filter(byOccasion, i => !Excluded(i, excl)) else byOccasion
  }

  /** The clean items of the occasion's category, before the exclusion filter. */
  function OccasionItems(items: seq<WardrobeItem>, occasion: string): seq<WardrobeItem>
  {
    var clean := CleanItems(items);
    if occasion != "" then Filter(clean, i => InCategory(i, occasion)) else clean
  }

  predicate Offered(i: WardrobeItem, occasion: string, excl: set<int>)
  {
    IsClean(i) && (occasion == "" || InCategory(i, occasion)) && !Excluded(i, excl)
  }

  lemma OccasionItemsMembers(items: seq<WardrobeItem>, occasion: string)
    ensures forall x :: x in OccasionItems(items, occasion) <==> x in items && IsClean(x) && (occasion == "" || InCategory(x, occasion))
  {
    var clean := CleanItems(items);
    FilterMembers(items, IsClean);
    var onOccasion := (i: WardrobeItem) => InCategory(i, occasion);
    FilterMembers(clean, onOccasion);
  }

  /** The pool holds exactly the clean, on-occasion, non-excluded items of the wardrobe. */
  lemma PoolMembers(items: seq<WardrobeItem>, occasion: string, excl: set<int>)
    ensures forall x :: x in Pool(items, occasion, excl) <==> x in items && Offered(x, occasion, excl)
  {
    var byOccasion := OccasionItems(items, occasion);
    assert Pool(items, occasion, excl) == if excl != {} then Filter(byOccasion, i => !Excluded(i, excl)) else byOccasion;
    OccasionItemsMembers(items, occasion);
    var kept := (i: WardrobeItem) => !Excluded(i, excl);
    FilterMembers(byOccasion, kept);
  }

  // ---------------------------------------------------------------- the missing-parts rule

  function CountKind(items: seq<WardrobeItem>, t: string): nat
  {
    Count(items, i => HasKind(i, t))
  }

  /** `_count_type(items, t) == 0` exactly when no item has type `t`. */
  lemma CountKindZero(items: seq<WardrobeItem>, t: string)
    ensures CountKind(items, t) == 0 <==> forall k :: 0 <= k < |items| ==> !HasKind(items[k], t)
  {
    var p := (i: WardrobeItem) => HasKind(i, t);
    FilterMembers(items, p);
    var r := Filter(items, p);
    if r != [] {
      assert r[0] in items;
    }
  }

  /** Outerwear is required at 5 degrees or below, or when the condition is snow or rain in any case. */
  predicate OuterRequired(temp: Option<int>, condition: Json)
  {
    (temp.Some? && temp.value <= 5) ||
    (condition.JStr? && (Lower(condition.s) == "snow" || Lower(condition.s) == "rain"))
  }

  datatype Part = Shoes | Top | Bottom | Outerwear

  const PartOrder: seq<Part> := [Shoes, Top, Bottom, Outerwear]

  /** Whether the pool lacks a part, judged part by part. */
  predicate IsMissing(pool: seq<WardrobeItem>, outerRequired: bool, p: Part)
  {
    match p
    case Shoes => CountKind(pool, "shoes") == 0
    case Top => CountKind(pool, "onepiece") == 0 && CountKind(pool, "top") == 0
    case Bottom => CountKind(pool, "onepiece") == 0 && CountKind(pool, "bottom") == 0
    case Outerwear => outerRequired && CountKind(pool, "outer") == 0
  }

  /** The missing parts in the fixed order shoes, top, bottom, outerwear. */
  function MissingList(pool: seq<WardrobeItem>, outerRequired: bool): seq<Part>
  {
    Filter(PartOrder, p => IsMissing(pool, outerRequired, p))
  }

  lemma Filter4<T>(a: T, b: T, c: T, d: T, p: T -> bool)
    ensures Filter([a, b, c, d], p) ==
      (if p(a) then [a] else []) + (if p(b) then [b] else []) + (if p(c) then [c] else []) + (if p(d) then [d] else [])
  {
    assert [a, b, c, d][1..] == [b, c, d] && [b, c, d][1..] == [c, d] && [c, d][1..] == [d] && [d][1..] == [];
    assert Filter([d], p) == (if p(d) then [d] else []) + Filter([], p);
    assert Filter([c, d], p) == (if p(c) then [c] else []) + Filter([d], p);
    assert Filter([b, c, d], p) == (if p(b) then [b] else []) + Filter([c, d], p);
    assert Filter([a, b, c, d], p) == (if p(a) then [a] else []) + Filter([b, c, d], p);
  }

  lemma MissingListUnfold(pool: seq<WardrobeItem>, outerRequired: bool)
    ensures MissingList(pool, outerRequired) ==
      (if IsMissing(pool, outerRequired, Shoes) then [Shoes] else []) +
      (if IsMissing(pool, outerRequired, Top) then [Top] else []) +
      (if IsMissing(pool, outerRequired, Bottom) then [Bottom] else []) +
      (if IsMissing(pool, outerRequired, Outerwear) then [Outerwear] else [])
  {
    Filter4(Shoes, Top, Bottom, Outerwear, p => IsMissing(pool, outerRequired, p));
  }

  /** The `missing_parts` list, built with the source's nested tests. */
  method MissingParts(pool: seq<WardrobeItem>, outerRequired: bool) returns (missing: seq<Part>)
    ensures missing == MissingList(pool, outerRequired)
  {
    var shoes := CountKind(pool, "shoes");
    var top := CountKind(pool, "top");
    var bottom := CountKind(pool, "bottom");
    var onepiece := CountKind(pool, "onepiece");
    var outer := CountKind(pool, "outer");
    ghost var miss := (p: Part) => IsMissing(pool, outerRequired, p);
    assert miss(Shoes) == (shoes == 0) && miss(Top) == (onepiece == 0 && top == 0);
    assert miss(Bottom) == (onepiece == 0 && bottom == 0) && miss(Outerwear) == (outerRequired && outer == 0);
    missing := [];
    if shoes == 0 {
      missing := missing + [Shoes];
    }
    if onepiece == 0 && (top == 0 || bottom == 0) {
      if top == 0 {
        missing := missing + [Top];
      }
      if bottom == 0 {
        missing := missing + [Bottom];
      }
    }
    if outerRequired && outer == 0 {
      missing := missing + [Outerwear];
    }
    MissingListUnfold(pool, outerRequired);
  }

  function Rank(p: Part): nat
  {
    match p
    case Shoes => 0
    case Top => 1
    case Bottom => 2
    case Outerwear => 3
  }

  /** No item of the pool has type `t`. */
  predicate NoKind(pool: seq<WardrobeItem>, t: string)
  {
    forall k :: 0 <= k < |pool| ==> !HasKind(pool[k], t)
  }

  /**
   * What the missing list means in terms of the pool: shoes when the pool has
   * none; top (bottom) only when there is no onepiece and no top (bottom);
   * outerwear when it is required and absent.
   */
  lemma MissingListMeaning(pool: seq<WardrobeItem>, outerRequired: bool)
    ensures Shoes in MissingList(pool, outerRequired) <==> NoKind(pool, "shoes")
    ensures Top in MissingList(pool, outerRequired) <==> NoKind(pool, "onepiece") && NoKind(pool, "top")
    ensures Bottom in MissingList(pool, outerRequired) <==> NoKind(pool, "onepiece") && NoKind(pool, "bottom")
    ensures Outerwear in MissingList(pool, outerRequired) <==> outerRequired && NoKind(pool, "outer")
  {
    CountKindZero(pool, "shoes");
    CountKindZero(pool, "top");
    CountKindZero(pool, "bottom");
    CountKindZero(pool, "onepiece");
    CountKindZero(pool, "outer");
    MissingListUnfold(pool, outerRequired);
  }

  /** The missing parts are listed in the fixed order shoes, top, bottom, outerwear. */
  lemma MissingListOrdered(pool: seq<WardrobeItem>, outerRequired: bool)
    ensures var m := MissingList(pool, outerRequired);
      forall a, b :: 0 <= a < b < |m| ==> Rank(m[a]) < Rank(m[b])
  {
    var p := (q: Part) => IsMissing(pool, outerRequired, q);
    Filter4(Shoes, Top, Bottom, Outerwear, p);
    SubsequenceOfOrder(p(Shoes), p(Top), p(Bottom), p(Outerwear));
  }

  lemma SubsequenceOfOrder(s: bool, t: bool, b: bool, o: bool)
    ensures var m := (if s then [Shoes] else []) + (if t then [Top] else []) + (if b then [Bottom] else []) + (if o then [Outerwear] else []);
      forall i, j :: 0 <= i < j < |m| ==> Rank(m[i]) < Rank(m[j])
  {
  }

  // ---------------------------------------------------------------- the category tally

  /** `str(item.get('category', '')).strip()`. */
  function CategoryOf(i: WardrobeItem): string
  {
    Strip(i.category, PySpace)
  }

  /** A category the hint lists: non-empty and not the chosen occasion label, compared case-insensitively. */
  predicate OtherCategory(c: string, chosen: string)
  {
    c != "" && Lower(c) != Lower(chosen)
  }

  /** `d[c] = d.get(c, 0) + 1` on an insertion-ordered dict held as pairs. */
  function Bump(t: seq<(string, nat)>, c: string): seq<(string, nat)>
  {
    if t == [] then [(c, 1)]
    else if t[0].0 == c then [(c, t[0].1 + 1)] + t[1..]
    else [t[0]] + Bump(t[1..], c)
  }

  /** The count held for `c`, 0 when absent. */
  function CountOf(t: seq<(string, nat)>, c: string): nat
  {
    if t == [] then 0 else if t[0].0 == c then t[0].1 else CountOf(t[1..], c)
  }

  predicate DistinctKeys(t: seq<(string, nat)>)
  {
    forall a, b :: 0 <= a < b < |t| ==> t[a].0 != t[b].0
  }

  /** The `other_categories` dict after the items, in insertion order. */
  function Tally(items: seq<WardrobeItem>, chosen: string): seq<(string, nat)>
    decreases |items|
  {
    if items == [] then []
    else
      var t := Tally(items[..|items| - 1], chosen);
      var c := CategoryOf(items[|items| - 1]);
      if OtherCategory(c, chosen) then Bump(t, c) else t
  }

  /** The number of items whose stripped category is `c`. */
  function CountCategory(items: seq<WardrobeItem>, c: string): nat
    decreases |items|
  {
    if items == [] then 0
    else CountCategory(items[..|items| - 1], c) + (if CategoryOf(items[|items| - 1]) == c then 1 else 0)
  }

  /** The `for item in clean_items` tally loop. */
  method CategoryTally(clean: seq<WardrobeItem>, chosen: string) returns (tally: seq<(string, nat)>)
    ensures tally == Tally(clean, chosen)
  {
    tally := [];
    var i := 0;
    while i < |clean|
      invariant 0 <= i <= |clean|
      invariant tally == Tally(clean[..i], chosen)
    {
      assert clean[..i + 1][..i] == clean[..i];
      var c := CategoryOf(clean[i]);
      if c != "" && Lower(c) != Lower(chosen) {
        tally := Bump(tally, c);
      }
      i := i + 1;
    }
    assert clean[..|clean|] == clean;
  }

  lemma {:induction false} BumpKeys(t: seq<(string, nat)>, c: string)
    requires DistinctKeys(t)
    ensures DistinctKeys(Bump(t, c))
    ensures forall k :: 0 <= k < |Bump(t, c)| ==> Bump(t, c)[k].0 == c || exists j :: 0 <= j < |t| && t[j].0 == Bump(t, c)[k].0
    decreases |t|
  {
    if t != [] && t[0].0 != c {
      BumpKeys(t[1..], c);
      var b := Bump(t, c);
      assert b == [t[0]] + Bump(t[1..], c);
      forall k | 0 <= k < |b|
        ensures b[k].0 == c || exists j :: 0 <= j < |t| && t[j].0 == b[k].0
      {
        if k > 0 && b[k].0 != c {
          var j :| 0 <= j < |t[1..]| && t[1..][j].0 == b[k].0;
          assert t[j + 1].0 == b[k].0;
        }
      }
      forall a, d | 0 <= a < d < |b|
        ensures b[a].0 != b[d].0
      {
        if a == 0 && b[d].0 != c {
          var j :| 0 <= j < |t[1..]| && t[1..][j].0 == b[d].0;
          assert t[j + 1].0 == b[d].0;
        }
      }
    }
  }

  lemma {:induction false} BumpCounts(t: seq<(string, nat)>, c: string)
    ensures forall s :: CountOf(Bump(t, c), s) == CountOf(t, s) + (if s == c then 1 else 0)
    decreases |t|
  {
    if t != [] && t[0].0 != c {
      BumpCounts(t[1..], c);
    }
  }

  lemma {:induction false} BumpPositive(t: seq<(string, nat)>, c: string)
    requires forall k :: 0 <= k < |t| ==> t[k].1 >= 1
    ensures forall k :: 0 <= k < |Bump(t, c)| ==> Bump(t, c)[k].1 >= 1
    decreases |t|
  {
    if t != [] && t[0].0 != c {
      BumpPositive(t[1..], c);
      assert Bump(t, c) == [t[0]] + Bump(t[1..], c);
    }
  }

  lemma {:induction false} CountOfEntry(t: seq<(string, nat)>, k: nat)
    requires DistinctKeys(t) && k < |t|
    ensures CountOf(t, t[k].0) == t[k].1
    decreases |t|
  {
    if k > 0 {
      CountOfEntry(t[1..], k - 1);
    }
  }

  lemma {:induction false} TallyShape(items: seq<WardrobeItem>, chosen: string)
    ensures DistinctKeys(Tally(items, chosen))
    ensures forall k :: 0 <= k < |Tally(items, chosen)| ==> Tally(items, chosen)[k].1 >= 1
    decreases |items|
  {
    if items != [] {
      var t := Tally(items[..|items| - 1], chosen);
      var c := CategoryOf(items[|items| - 1]);
      TallyShape(items[..|items| - 1], chosen);
      if OtherCategory(c, chosen) {
        BumpKeys(t, c);
        BumpPositive(t, c);
      }
    }
  }

  lemma {:induction false} TallyCountOf(items: seq<WardrobeItem>, chosen: string)
    ensures forall s :: CountOf(Tally(items, chosen), s) == (if OtherCategory(s, chosen) then CountCategory(items, s) else 0)
    decreases |items|
  {
    if items != [] {
      var init := items[..|items| - 1];
      var t := Tally(init, chosen);
      var c := CategoryOf(items[|items| - 1]);
      TallyCountOf(init, chosen);
      if OtherCategory(c, chosen) {
        BumpCounts(t, c);
      }
      forall s
        ensures CountOf(Tally(items, chosen), s) == (if OtherCategory(s, chosen) then CountCategory(items, s) else 0)
      {
        assert CountCategory(items, s) == CountCategory(init, s) + (if c == s then 1 else 0);
      }
    }
  }

  /**
   * The tally counts, for every category other than the occasion label, how
   * many of the items carry it: the entries have distinct keys and positive
   * counts, every key is another category, and the count held for any string
   * is its number of occurrences when it is another category and zero otherwise.
   */
  lemma TallyCounts(items: seq<WardrobeItem>, chosen: string)
    ensures DistinctKeys(Tally(items, chosen))
    ensures forall k :: 0 <= k < |Tally(items, chosen)| ==>
      Tally(items, chosen)[k].1 >= 1 && OtherCategory(Tally(items, chosen)[k].0, chosen)
    ensures forall s :: CountOf(Tally(items, chosen), s) == (if OtherCategory(s, chosen) then CountCategory(items, s) else 0)
  {
    var t := Tally(items, chosen);
    TallyShape(items, chosen);
    TallyCountOf(items, chosen);
    forall k | 0 <= k < |t|
      ensures OtherCategory(t[k].0, chosen)
    {
      CountOfEntry(t, k);
    }
  }

  // ---------------------------------------------------------------- the verdict

  /** The feasibility outcome; `Infeasible` carries the parts of the "Can't create" message. */
  datatype Verdict =
    | Feasible
    | Infeasible(occasionLabel: string, missing: seq<Part>, otherCategories: seq<(string, nat)>, excludedNote: bool)

  /**
   * The check on the normalised occasion and the exclusion set: the missing
   * parts of the pool, the chosen, the other-category hint (gated, as written,
   * on some clean item lying outside the chosen) and the excluded-items note.
   */
  function Check(items: seq<WardrobeItem>, occasion: string, excl: set<int>, temp: Option<int>, condition: Json): Verdict
  {
    var clean := CleanItems(items);
    var pool := Pool(items, occasion, excl);
    var missing := MissingList(pool, OuterRequired(temp, condition));
    if missing == [] then Feasible
    else
      var chosen := if occasion != "" then occasion else "selected";
      var cleanForLabel := if occasion != "" then |Filter(clean, i => InCategory(i, chosen))| else |clean|;
      var hint := if occasion != "" && |clean| - cleanForLabel > 0 then Tally(clean, chosen) else [];
      Infeasible(chosen, missing, hint, excl != {})
  }

  lemma {:induction false} FilterKeepsAll<T>(s: seq<T>, p: T -> bool)
    requires |Filter(s, p)| == |s|
    ensures forall k :: 0 <= k < |s| ==> p(s[k])
  {
    if s != [] {
      assert Filter(s, p) == (if p(s[0]) then [s[0]] else []) + Filter(s[1..], p);
      FilterKeepsAll(s[1..], p);
      assert forall k :: 1 <= k < |s| ==> s[k] == s[1..][k - 1];
    }
  }

  lemma {:induction false} TallyOfLabelled(items: seq<WardrobeItem>, chosen: string)
    requires forall k :: 0 <= k < |items| ==> InCategory(items[k], chosen)
    ensures Tally(items, chosen) == []
    decreases |items|
  {
    if items != [] {
      TallyOfLabelled(items[..|items| - 1], chosen);
    }
  }

  /**
   * The `other_clean > 0` gate never hides a hint: with an occasion chosen,
   * the hint is exactly the tally of the clean items, and it names only
   * categories other than the occasion.
   */
  lemma HintIsTally(items: seq<WardrobeItem>, occasion: string, excl: set<int>, temp: Option<int>, condition: Json)
    requires Check(items, occasion, excl, temp, condition).Infeasible?
    ensures var v := Check(items, occasion, excl, temp, condition);
      v.otherCategories == (if occasion != "" then Tally(CleanItems(items), occasion) else []) &&
      (forall k :: 0 <= k < |v.otherCategories| ==> OtherCategory(v.otherCategories[k].0, occasion))
  {
    var clean := CleanItems(items);
    if occasion != "" {
      var p := (i: WardrobeItem) => InCategory(i, occasion);
      if |Filter(clean, p)| == |clean| {
        FilterKeepsAll(clean, p);
        TallyOfLabelled(clean, occasion);
      }
      TallyCounts(clean, occasion);
    }
  }

  /** A wardrobe whose pool has shoes, a onepiece, and outerwear when needed is feasible. */
  lemma FeasibleWhenComplete(items: seq<WardrobeItem>, occasion: string, excl: set<int>, temp: Option<int>, condition: Json,
                             shoes: nat, onepiece: nat, outer: nat)
    requires var pool := Pool(items, occasion, excl);
      shoes < |pool| && HasKind(pool[shoes], "shoes") && onepiece < |pool| && HasKind(pool[onepiece], "onepiece") &&
      outer < |pool| && HasKind(pool[outer], "outer")
    ensures Check(items, occasion, excl, temp, condition) == Feasible
  {
    var pool := Pool(items, occasion, excl);
    MissingListMeaning(pool, OuterRequired(temp, condition));
    MissingListUnfold(pool, OuterRequired(temp, condition));
  }
}

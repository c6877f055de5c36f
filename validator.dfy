/**
 * `_validate_llm_output`: a closed-world check of the model's candidate
 * outfit against the offered pool and the accessory list, with stable
 * rejection codes, producing the enriched outfit on success.
 */
module Validator {
  import opened Wrappers
  import opened Text
  import opened JsonValue
  import opened Domain
  import opened Prompt
  import opened LlmClient
  import opened Feasibility

  /** A wardrobe item is referenced by its integer id, an accessory by its string id. */
  datatype EntryId = ItemRef(n: int) | AccessoryRef(s: string)

  /** One entry of the enriched outfit. */
  datatype Entry = Entry(role: string, id: EntryId, name: string, category: string, color: string, icon: string, reason: Json)

  /** Where an `llm_error` came from: the generation call, or an "error" key in the reply itself. */
  datatype Upstream = CallError(e: LlmError) | ReplyError(value: Json)

  /** The rejection codes, each with the id its message names. */
  datatype Rejection =
    | LlmErrorCode(cause: Upstream)
    | InvalidSchema
    | NoShoes
    | NoCleanShoes
    | InvalidEntry
    | UnknownAccessory(ref: Json)
    | UnknownItem(ref: Json)
    | UsedExcluded(ref: Json)
    | DirtyItem(ref: Json)
    | EmptyOutfit
    | MissingShoes

  /** The stable code string of each rejection. */
  function CodeName(r: Rejection): string
  {
    match r
    case LlmErrorCode(_) => "llm_error"
    case InvalidSchema => "invalid_schema"
    case NoShoes => "no_shoes"
    case NoCleanShoes => "no_clean_shoes"
    case InvalidEntry => "invalid_entry"
    case UnknownAccessory(_) => "unknown_accessory"
    case UnknownItem(_) => "unknown_item"
    case UsedExcluded(_) => "used_excluded"
    case DirtyItem(_) => "dirty_item"
    case EmptyOutfit => "empty_outfit"
    case MissingShoes => "missing_shoes"
  }

  /**
   * The validator's verdict. `Raised` is the Python exception a truthy
   * non-string role or type raises in `.lower()`; it escapes the validator.
   */
  datatype Validation =
    | Accepted(outfit: seq<Entry>, hasAccessory: bool, explanation: Json, score: Json)
    | Rejected(why: Rejection)
    | Raised

  // ---------------------------------------------------------------- lookups

  /** `by_id[n]`: the last pool item with id `n` (a dict comprehension keeps the last). */
  function LookupItem(pool: seq<WardrobeItem>, n: int): (r: Option<WardrobeItem>)
    ensures r.Some? ==> r.value in pool && r.value.id == Some(n)
    ensures r.None? <==> forall k :: 0 <= k < |pool| ==> pool[k].id != Some(n)
    decreases |pool|
  {
    if pool == [] then None
    else if pool[|pool| - 1].id == Some(n) then Some(pool[|pool| - 1])
    else
      var r := LookupItem(pool[..|pool| - 1], n);
      assert forall k :: 0 <= k < |pool| - 1 ==> pool[..|pool| - 1][k] == pool[k];
      r
  }

  /** `acc_by_id[s]`: the last accessory whose id is `s`. */
  function LookupAccessory(accs: seq<Accessory>, s: string): (r: Option<Accessory>)
    ensures r.Some? ==> r.value in accs && r.value.oid == Some(s)
    ensures r.None? <==> forall k :: 0 <= k < |accs| ==> accs[k].oid != Some(s)
    decreases |accs|
  {
    if accs == [] then None
    else if accs[|accs| - 1].oid == Some(s) then Some(accs[|accs| - 1])
    else
      var r := LookupAccessory(accs[..|accs| - 1], s);
      assert forall k :: 0 <= k < |accs| - 1 ==> accs[..|accs| - 1][k] == accs[k];
      r
  }

  /** The `acc_by_id` loop: each accessory with an id overwrites the entry under that id. */
  method AccessoryTable(accs: seq<Accessory>) returns (table: map<string, Accessory>)
    ensures forall s :: s in table <==> LookupAccessory(accs, s).Some?
    ensures forall s :: s in table ==> table[s] == LookupAccessory(accs, s).value
  {
    table := map[];
    var i := 0;
    while i < |accs|
      invariant 0 <= i <= |accs|
      invariant forall s :: s in table <==> LookupAccessory(accs[..i], s).Some?
      invariant forall s :: s in table ==> table[s] == LookupAccessory(accs[..i], s).value
    {
      assert accs[..i + 1][..i] == accs[..i];
      var a := accs[i];
      if a.oid.Some? {
        table := table[a.oid.value := a];
      }
      i := i + 1;
    }
    assert accs[..|accs|] == accs;
  }

  predicate AnyShoes(pool: seq<WardrobeItem>)
  {
    exists k :: 0 <= k < |pool| && HasKind(pool[k], "shoes")
  }

  predicate AnyCleanShoes(pool: seq<WardrobeItem>)
  {
    exists k :: 0 <= k < |pool| && HasKind(pool[k], "shoes") && IsClean(pool[k])
  }

  // ---------------------------------------------------------------- one entry

  /** The outcome of checking one entry: its enriched form and whether it adds shoes or an accessory, or a verdict. */
  datatype Step = Continue(entry: Entry, isShoes: bool, isAccessory: bool) | Stop(v: Validation)

  /** `(entry.get('role') or entry.get('type') or '')`, lower-cased and stripped; `None` when it is not a string. */
  function RoleOf(m: map<string, Json>): Option<string>
  {
    var r := Or(Or(Get(m, "role"), Get(m, "type")), JStr(""));
    if r.JStr? then Some(Strip(Lower(r.s), PySpace)) else None
  }

  /** The verdicts a single entry can produce. */
  predicate EntryVerdict(v: Validation)
  {
    v == Raised ||
    (v.Rejected? && (v.why == InvalidEntry || v.why.UnknownAccessory? || v.why.UnknownItem? || v.why.UsedExcluded? || v.why.DirtyItem?))
  }

  /** The enriched form of an accessory entry. */
  function AccessoryEntry(a: Accessory, accId: string, reason: Json): Entry
  {
    var name := if a.name != "" then a.name else "Accessory";
    Entry("accessory", AccessoryRef(accId), name, "Accessory", "", Glyph(AccessoryIcon(a)), reason)
  }

  /** An accessory entry: its id, as a string, must name an accessory. */
  function CheckAccessory(itemId: Json, reason: Json, accs: seq<Accessory>): (r: Step)
    ensures r.Continue? <==>
      itemId != JNull && ToStr(itemId).Some? && ToStr(itemId).value != "" && LookupAccessory(accs, ToStr(itemId).value).Some?
    ensures r.Continue? ==>
      r.entry.id == AccessoryRef(ToStr(itemId).value) && LookupAccessory(accs, r.entry.id.s).Some? &&
      r.entry.role == "accessory" && r.entry.category == "Accessory" && r.entry.reason == reason &&
      r.isAccessory && !r.isShoes
    ensures r.Continue? && r.entry.id.AccessoryRef? && LookupAccessory(accs, r.entry.id.s).Some? ==>
      var a := LookupAccessory(accs, r.entry.id.s).value;
      r.entry.name == (if a.name != "" then a.name else "Accessory") && r.entry.color == "" &&
      r.entry.icon == Glyph(AccessoryIcon(a))
    ensures r.Stop? ==> r.v == Rejected(UnknownAccessory(itemId))
  {
    var accId := if itemId == JNull then None else ToStr(itemId);
    if accId.None? || accId.value == "" || LookupAccessory(accs, accId.value).None? then Stop(Rejected(UnknownAccessory(itemId)))
    else Continue(AccessoryEntry(LookupAccessory(accs, accId.value).value, accId.value, reason), false, true)
  }

  /** A wardrobe entry: its id must convert to an integer naming a pool item that is not excluded and is clean. */
  function CheckItem(itemId: Json, role: string, reason: Json, pool: seq<WardrobeItem>, excl: set<int>): (r: Step)
    ensures var n := ToInt(itemId);
      (r == Stop(Rejected(UnknownItem(itemId))) <==> n.None? || LookupItem(pool, n.value).None?) &&
      (r == Stop(Rejected(UsedExcluded(itemId))) <==> n.Some? && LookupItem(pool, n.value).Some? && n.value in excl) &&
      (r == Stop(Rejected(DirtyItem(itemId))) <==>
        n.Some? && LookupItem(pool, n.value).Some? && n.value !in excl && !IsClean(LookupItem(pool, n.value).value))
    ensures r.Stop? ==> r.v.Rejected? && (r.v.why.UnknownItem? || r.v.why.UsedExcluded? || r.v.why.DirtyItem?)
    ensures r.Continue? ==>
      ToInt(itemId).Some? && r.entry.id == ItemRef(ToInt(itemId).value) && r.entry.reason == reason &&
      (role != "" ==> r.entry.role == role)
    ensures r.Continue? && role == "" && ToInt(itemId).Some? && LookupItem(pool, ToInt(itemId).value).Some? ==>
      var t := Lower(LookupItem(pool, ToInt(itemId).value).value.kind);
      r.entry.role == (if t != "" then t else "item")
    ensures r.Continue? && r.entry.id.ItemRef? ==>
      var item := LookupItem(pool, r.entry.id.n);
      item.Some? && IsClean(item.value) && r.entry.id.n !in excl &&
      r.entry.name == item.value.name && r.entry.category == item.value.category &&
      r.entry.color == item.value.color && r.entry.icon == item.value.icon &&
      (r.isShoes <==> HasKind(item.value, "shoes")) && !r.isAccessory
  {
    match ToInt(itemId)
    case None => Stop(Rejected(UnknownItem(itemId)))
    case Some(n) =>
      match LookupItem(pool, n)
      case None => Stop(Rejected(UnknownItem(itemId)))
      case Some(item) =>
        if excl != {} && n in excl then Stop(Rejected(UsedExcluded(itemId)))
        else if !IsClean(item) then Stop(Rejected(DirtyItem(itemId)))
        else
          var t := Lower(item.kind);
          var shownRole := if role != "" then role else if t != "" then t else "item";
          Continue(Entry(shownRole, ItemRef(n), item.name, item.category, item.color, item.icon, reason), t == "shoes", false)
  }

  /**
   * The loop body for one entry. An entry that passes references a known
   * accessory, or a known, clean, non-excluded pool item; it counts as shoes
   * exactly when the referenced item's type is shoes, whatever its role.
   */
  function CheckEntry(e: Json, pool: seq<WardrobeItem>, accs: seq<Accessory>, excl: set<int>): (r: Step)
    ensures r.Stop? ==> EntryVerdict(r.v)
    ensures r == Stop(Rejected(InvalidEntry)) <==> !e.JObj?
    ensures r == Stop(Raised) <==> e.JObj? && RoleOf(e.fields).None?
    ensures e.JObj? && RoleOf(e.fields) == Some("accessory") ==>
      r == CheckAccessory(Get(e.fields, "id"), Get(e.fields, "reason"), accs)
    ensures e.JObj? && RoleOf(e.fields).Some? && RoleOf(e.fields).value != "accessory" ==>
      r == CheckItem(Get(e.fields, "id"), RoleOf(e.fields).value, Get(e.fields, "reason"), pool, excl)
    ensures r.Continue? && r.entry.id.ItemRef? ==>
      var item := LookupItem(pool, r.entry.id.n);
      item.Some? && IsClean(item.value) && r.entry.id.n !in excl &&
      (r.isShoes <==> HasKind(item.value, "shoes")) && !r.isAccessory
    ensures r.Continue? && r.entry.id.AccessoryRef? ==>
      LookupAccessory(accs, r.entry.id.s).Some? && r.entry.role == "accessory" && r.isAccessory && !r.isShoes
  {
    if !e.JObj? then Stop(Rejected(InvalidEntry))
    else
      match RoleOf(e.fields)
      case None => Stop(Raised)
      case Some(role) =>
        if role == "accessory" then CheckAccessory(Get(e.fields, "id"), Get(e.fields, "reason"), accs)
        else CheckItem(Get(e.fields, "id"), role, Get(e.fields, "reason"), pool, excl)
  }

  // ---------------------------------------------------------------- the whole candidate

  datatype ScanState = Done(enriched: seq<Entry>, shoes: bool, accessory: bool) | Halted(v: Validation)

  /** The per-entry check with the pool, the accessories and the exclusion set fixed. */
  function Checker(pool: seq<WardrobeItem>, accs: seq<Accessory>, excl: set<int>): Json -> Step
  {
    e => CheckEntry(e, pool, accs, excl)
  }

  /** The `for entry in llm_res['outfit']` loop from entry `i` on, for a per-entry check. */
  function Scan(entries: seq<Json>, i: nat, check: Json -> Step, enriched: seq<Entry>, shoes: bool, accessory: bool): ScanState
    decreases |entries| - i
  {
    if i >= |entries| then Done(enriched, shoes, accessory)
    else
      match check(entries[i])
      case Stop(v) => Halted(v)
      case Continue(e, s, a) => Scan(entries, i + 1, check, enriched + [e], shoes || s, accessory || a)
  }

  /** The checks that precede the entries: an upstream error, the schema, shoes in the pool. */
  function Precheck(res: LlmResult, pool: seq<WardrobeItem>): Option<Rejection>
  {
    match res
    case Failure(e) => Some(LlmErrorCode(CallError(e)))
    case Reply(j) =>
      if j.JObj? && "error" in j.fields then Some(LlmErrorCode(ReplyError(j.fields["error"])))
      else if !j.JObj? || "outfit" !in j.fields || !j.fields["outfit"].JArr? then Some(InvalidSchema)
      else if !AnyShoes(pool) then Some(NoShoes)
      else if !AnyCleanShoes(pool) then Some(NoCleanShoes)
      else None
  }

  /** What the end of the entry loop decides: a halted scan's verdict, an empty outfit, missing shoes, or acceptance. */
  function Conclude(sc: ScanState, m: map<string, Json>): Validation
  {
    match sc
    case Halted(v) => v
    case Done(enriched, shoes, accessory) =>
      if enriched == [] then Rejected(EmptyOutfit)
      else if !shoes then Rejected(MissingShoes)
      else Accepted(enriched, accessory, Get(m, "explanation"), Get(m, "score"))
  }

  /** `_validate_llm_output` on a generation result, the offered pool, the accessories and the exclusion set. */
  function Validate(res: LlmResult, pool: seq<WardrobeItem>, accs: seq<Accessory>, excl: set<int>): Validation
  {
    match Precheck(res, pool)
    case Some(why) => Rejected(why)
    case None =>
      var m := res.value.fields;
      Conclude(Scan(m["outfit"].elems, 0, Checker(pool, accs, excl), [], false, false), m)
  }

  /** The validator as the source writes it: the accessory table, then the entry loop appending to `enriched`. */
  method ValidateOutput(res: LlmResult, pool: seq<WardrobeItem>, accs: seq<Accessory>, excl: set<int>) returns (v: Validation)
    ensures v == Validate(res, pool, accs, excl)
  {
    var pre := Precheck(res, pool);
    if pre.Some? {
      return Rejected(pre.value);
    }
    var m := res.value.fields;
    var entries := m["outfit"].elems;
    var table := AccessoryTable(accs);
    var enriched: seq<Entry> := [];
    var includedShoes, includedAccessory := false, false;
    ghost var check := Checker(pool, accs, excl);
    var i := 0;
    while i < |entries|
      invariant 0 <= i <= |entries|
      invariant Scan(entries, i, check, enriched, includedShoes, includedAccessory) == Scan(entries, 0, check, [], false, false)
    {
      var step := EntryStep(entries[i], pool, accs, table, excl);
      if step.Stop? {
        return step.v;
      }
      enriched := enriched + [step.entry];
      includedShoes := includedShoes || step.isShoes;
      includedAccessory := includedAccessory || step.isAccessory;
      i := i + 1;
    }
    if |enriched| == 0 {
      return Rejected(EmptyOutfit);
    }
    if !includedShoes {
      return Rejected(MissingShoes);
    }
    v := Accepted(enriched, includedAccessory, Get(m, "explanation"), Get(m, "score"));
  }

  /** The loop body, reading accessories from the table the method built. */
  method EntryStep(e: Json, pool: seq<WardrobeItem>, accs: seq<Accessory>, table: map<string, Accessory>, excl: set<int>)
    returns (step: Step)
    requires forall s :: s in table <==> LookupAccessory(accs, s).Some?
    requires forall s :: s in table ==> table[s] == LookupAccessory(accs, s).value
    ensures step == CheckEntry(e, pool, accs, excl)
  {
    if !e.JObj? {
      return Stop(Rejected(InvalidEntry));
    }
    var m := e.fields;
    var role := RoleOf(m);
    if role.None? {
      return Stop(Raised);
    }
    if role.value == "accessory" {
      step := AccessoryStep(Get(m, "id"), Get(m, "reason"), accs, table);
    } else {
      step := CheckItem(Get(m, "id"), role.value, Get(m, "reason"), pool, excl);
    }
  }

  /** An accessory entry, looked up in the table. */
  method AccessoryStep(itemId: Json, reason: Json, accs: seq<Accessory>, table: map<string, Accessory>)
    returns (step: Step)
    requires forall s :: s in table <==> LookupAccessory(accs, s).Some?
    requires forall s :: s in table ==> table[s] == LookupAccessory(accs, s).value
    ensures step == CheckAccessory(itemId, reason, accs)
  {
    var accId := if itemId == JNull then None else ToStr(itemId);
    if accId.None? || accId.value == "" || accId.value !in table {
      return Stop(Rejected(UnknownAccessory(itemId)));
    }
    return Continue(AccessoryEntry(table[accId.value], accId.value, reason), false, true);
  }

  // ---------------------------------------------------------------- properties

  predicate Passes(check: Json -> Step, e: Json)
  {
    check(e).Continue?
  }

  predicate AddsShoes(check: Json -> Step, e: Json)
  {
    check(e).Continue? && check(e).isShoes
  }

  predicate AddsAccessory(check: Json -> Step, e: Json)
  {
    check(e).Continue? && check(e).isAccessory
  }

  /** A scan that reaches the end has enriched every entry, in order, and its flags say whether any entry added shoes or an accessory. */
  lemma {:induction false} ScanDone(entries: seq<Json>, i: nat, check: Json -> Step, enriched: seq<Entry>, shoes: bool, accessory: bool)
    requires i <= |entries|
    requires Scan(entries, i, check, enriched, shoes, accessory).Done?
    ensures var d := Scan(entries, i, check, enriched, shoes, accessory);
      |d.enriched| == |enriched| + |entries| - i && d.enriched[..|enriched|] == enriched &&
      (forall k :: i <= k < |entries| ==> Passes(check, entries[k]) && d.enriched[|enriched| + k - i] == check(entries[k]).entry) &&
      (d.shoes <==> shoes || exists k :: i <= k < |entries| && AddsShoes(check, entries[k])) &&
      (d.accessory <==> accessory || exists k :: i <= k < |entries| && AddsAccessory(check, entries[k]))
    decreases |entries| - i
  {
    if i < |entries| {
      var step := check(entries[i]);
      var e2 := enriched + [step.entry];
      ScanDone(entries, i + 1, check, e2, shoes || step.isShoes, accessory || step.isAccessory);
      var d := Scan(entries, i, check, enriched, shoes, accessory);
      assert d == Scan(entries, i + 1, check, e2, shoes || step.isShoes, accessory || step.isAccessory);
      assert d.enriched[..|e2|][..|enriched|] == d.enriched[..|enriched|];
      assert d.enriched[|enriched|] == e2[|enriched|];
    }
  }

  /** A scan stops only at an entry that fails, with that entry's verdict. */
  lemma {:induction false} ScanHalted(entries: seq<Json>, i: nat, check: Json -> Step, enriched: seq<Entry>, shoes: bool, accessory: bool)
    requires Scan(entries, i, check, enriched, shoes, accessory).Halted?
    ensures exists k :: (i <= k < |entries| && check(entries[k]).Stop? &&
                         Scan(entries, i, check, enriched, shoes, accessory).v == check(entries[k]).v)
    decreases |entries| - i
  {
    var step := check(entries[i]);
    if step.Continue? {
      ScanHalted(entries, i + 1, check, enriched + [step.entry], shoes || step.isShoes, accessory || step.isAccessory);
    }
  }

  /** The first failing entry decides: entries after it are never looked at. */
  lemma {:induction false} FirstFailureDecides(entries: seq<Json>, i: nat, k: nat, check: Json -> Step,
                                               enriched: seq<Entry>, shoes: bool, accessory: bool)
    requires i <= k < |entries|
    requires forall j :: i <= j < k ==> Passes(check, entries[j])
    requires check(entries[k]).Stop?
    ensures Scan(entries, i, check, enriched, shoes, accessory) == Halted(check(entries[k]).v)
    decreases k - i
  {
    if i < k {
      var step := check(entries[i]);
      FirstFailureDecides(entries, i + 1, k, check, enriched + [step.entry], shoes || step.isShoes, accessory || step.isAccessory);
    }
  }

  /** When every entry passes, the scan reaches the end. */
  lemma {:induction false} AllPassDone(entries: seq<Json>, i: nat, check: Json -> Step, enriched: seq<Entry>, shoes: bool, accessory: bool)
    requires forall j :: i <= j < |entries| ==> Passes(check, entries[j])
    ensures Scan(entries, i, check, enriched, shoes, accessory).Done?
    decreases |entries| - i
  {
    if i < |entries| {
      var step := check(entries[i]);
      AllPassDone(entries, i + 1, check, enriched + [step.entry], shoes || step.isShoes, accessory || step.isAccessory);
    }
  }

  predicate SchemaOk(res: LlmResult)
  {
    res.Reply? && res.value.JObj? && "error" !in res.value.fields &&
    "outfit" in res.value.fields && res.value.fields["outfit"].JArr?
  }

  function Entries(res: LlmResult): seq<Json>
    requires SchemaOk(res)
  {
    res.value.fields["outfit"].elems
  }

  /**
   * The entry loop and its conclusion, for any per-entry check: the first
   * failing entry decides; an empty outfit is rejected before missing shoes;
   * missing shoes means every entry passed and none added shoes; an accepted
   * outfit holds every entry's enriched form in order, at least one of them
   * adds shoes, and the accessory flag says whether one adds an accessory.
   */
  lemma {:induction false} ConcludeFacts(entries: seq<Json>, check: Json -> Step, m: map<string, Json>)
    requires forall j :: 0 <= j < |entries| ==> (check(entries[j]).Stop? ==> EntryVerdict(check(entries[j]).v))
    ensures var v := Conclude(Scan(entries, 0, check, [], false, false), m);
      (v.Rejected? ==> EntryVerdict(v) || v.why == EmptyOutfit || v.why == MissingShoes) &&
      (forall k :: 0 <= k < |entries| && check(entries[k]).Stop? && (forall j :: 0 <= j < k ==> Passes(check, entries[j]))
                   ==> v == check(entries[k]).v) &&
      (v == Rejected(EmptyOutfit) <==> entries == []) &&
      (v == Rejected(MissingShoes) <==>
         entries != [] && (forall k :: 0 <= k < |entries| ==> Passes(check, entries[k])) &&
         !(exists k :: 0 <= k < |entries| && AddsShoes(check, entries[k])))
    ensures var v := Conclude(Scan(entries, 0, check, [], false, false), m);
      v.Accepted? ==>
        |v.outfit| == |entries| > 0 &&
        (forall k :: 0 <= k < |entries| ==> Passes(check, entries[k]) && v.outfit[k] == check(entries[k]).entry) &&
        (exists k :: 0 <= k < |entries| && AddsShoes(check, entries[k])) &&
        (v.hasAccessory <==> exists k :: 0 <= k < |entries| && AddsAccessory(check, entries[k]))
  {
    ConcludeFirstFailure(entries, check, m);
    if Scan(entries, 0, check, [], false, false).Done? {
      ConcludeWhenDone(entries, check, m);
      ConcludeAccepted(entries, check, m);
    } else {
      ConcludeWhenHalted(entries, check, m);
    }
  }

  lemma ConcludeFirstFailure(entries: seq<Json>, check: Json -> Step, m: map<string, Json>)
    ensures forall k :: (0 <= k < |entries| && check(entries[k]).Stop? && (forall j :: 0 <= j < k ==> Passes(check, entries[j]))
                         ==> Conclude(Scan(entries, 0, check, [], false, false), m) == check(entries[k]).v)
  {
    forall k | 0 <= k < |entries| && check(entries[k]).Stop? && (forall j :: 0 <= j < k ==> Passes(check, entries[j]))
      ensures Conclude(Scan(entries, 0, check, [], false, false), m) == check(entries[k]).v
    {
      FirstFailureDecides(entries, 0, k, check, [], false, false);
    }
  }

  lemma ConcludeWhenDone(entries: seq<Json>, check: Json -> Step, m: map<string, Json>)
    requires Scan(entries, 0, check, [], false, false).Done?
    ensures forall k :: 0 <= k < |entries| ==> Passes(check, entries[k])
    ensures var v := Conclude(Scan(entries, 0, check, [], false, false), m);
      (v.Rejected? ==> v.why == EmptyOutfit || v.why == MissingShoes) &&
      (v == Rejected(EmptyOutfit) <==> entries == []) &&
      (v == Rejected(MissingShoes) <==> entries != [] && !(exists k :: 0 <= k < |entries| && AddsShoes(check, entries[k])))
  {
    ScanDoneFromStart(entries, check);
  }

  lemma ConcludeAccepted(entries: seq<Json>, check: Json -> Step, m: map<string, Json>)
    requires Scan(entries, 0, check, [], false, false).Done?
    ensures var v := Conclude(Scan(entries, 0, check, [], false, false), m);
      v.Accepted? ==>
        |v.outfit| == |entries| > 0 &&
        (forall k :: 0 <= k < |entries| ==> Passes(check, entries[k]) && v.outfit[k] == check(entries[k]).entry) &&
        (exists k :: 0 <= k < |entries| && AddsShoes(check, entries[k])) &&
        (v.hasAccessory <==> exists k :: 0 <= k < |entries| && AddsAccessory(check, entries[k]))
  {
    ScanDoneFromStart(entries, check);
  }

  /** A scan from the start that reaches the end: `ScanDone` with nothing enriched yet. */
  lemma ScanDoneFromStart(entries: seq<Json>, check: Json -> Step)
    requires Scan(entries, 0, check, [], false, false).Done?
    ensures var d := Scan(entries, 0, check, [], false, false);
      |d.enriched| == |entries| &&
      (forall k :: 0 <= k < |entries| ==> Passes(check, entries[k]) && d.enriched[k] == check(entries[k]).entry) &&
      (d.shoes <==> exists k :: 0 <= k < |entries| && AddsShoes(check, entries[k])) &&
      (d.accessory <==> exists k :: 0 <= k < |entries| && AddsAccessory(check, entries[k]))
  {
    ScanDone(entries, 0, check, [], false, false);
  }

  lemma ConcludeWhenHalted(entries: seq<Json>, check: Json -> Step, m: map<string, Json>)
    requires Scan(entries, 0, check, [], false, false).Halted?
    requires forall j :: 0 <= j < |entries| ==> (check(entries[j]).Stop? ==> EntryVerdict(check(entries[j]).v))
    ensures EntryVerdict(Conclude(Scan(entries, 0, check, [], false, false), m))
    ensures entries != [] && !(forall k :: 0 <= k < |entries| ==> Passes(check, entries[k]))
  {
    ScanHalted(entries, 0, check, [], false, false);
    var k :| 0 <= k < |entries| && check(entries[k]).Stop? &&
             Scan(entries, 0, check, [], false, false).v == check(entries[k]).v;
    assert !Passes(check, entries[k]);
  }

  lemma CheckerVerdicts(entries: seq<Json>, pool: seq<WardrobeItem>, accs: seq<Accessory>, excl: set<int>)
    ensures forall j :: 0 <= j < |entries| ==>
      (Checker(pool, accs, excl)(entries[j]).Stop? ==> EntryVerdict(Checker(pool, accs, excl)(entries[j]).v))
  {
  }

  /** The prechecks in order: an upstream error, then the schema, then shoes in the pool, then clean shoes. */
  lemma PrecheckOrder(res: LlmResult, pool: seq<WardrobeItem>, accs: seq<Accessory>, excl: set<int>)
    ensures var v := Validate(res, pool, accs, excl);
      (v.Rejected? && v.why.LlmErrorCode? <==> res.Failure? || (res.value.JObj? && "error" in res.value.fields)) &&
      (v == Rejected(InvalidSchema) <==> !res.Failure? && !(res.value.JObj? && "error" in res.value.fields) && !SchemaOk(res)) &&
      (v == Rejected(NoShoes) <==> SchemaOk(res) && !AnyShoes(pool)) &&
      (v == Rejected(NoCleanShoes) <==> SchemaOk(res) && AnyShoes(pool) && !AnyCleanShoes(pool))
  {
    if Precheck(res, pool).None? {
      ScanVerdictCodes(Entries(res), pool, accs, excl, res.value.fields);
    }
  }

  /** Past the prechecks, a rejection is a per-entry code, `empty_outfit` or `missing_shoes`. */
  lemma ScanVerdictCodes(entries: seq<Json>, pool: seq<WardrobeItem>, accs: seq<Accessory>, excl: set<int>, m: map<string, Json>)
    ensures var v := Conclude(Scan(entries, 0, Checker(pool, accs, excl), [], false, false), m);
      v.Rejected? ==> EntryVerdict(v) || v.why == EmptyOutfit || v.why == MissingShoes
  {
    CheckerVerdicts(entries, pool, accs, excl);
    ConcludeFacts(entries, Checker(pool, accs, excl), m);
  }

  /** A rejection other than `llm_error` means the result was a reply with no "error" key. */
  lemma RemediableIsReply(res: LlmResult, pool: seq<WardrobeItem>, accs: seq<Accessory>, excl: set<int>)
    requires Validate(res, pool, accs, excl).Rejected? && !Validate(res, pool, accs, excl).why.LlmErrorCode?
    ensures res.Reply? && !(res.value.JObj? && "error" in res.value.fields)
  {
    PrecheckOrder(res, pool, accs, excl);
  }

  /**
   * After the prechecks pass: the first failing entry decides the verdict,
   * an empty outfit is rejected before missing shoes, and missing shoes
   * means every entry passed and none referenced a shoes item.
   */
  lemma EntryOrder(res: LlmResult, pool: seq<WardrobeItem>, accs: seq<Accessory>, excl: set<int>)
    requires SchemaOk(res) && AnyCleanShoes(pool)
    ensures var v := Validate(res, pool, accs, excl);
      var check := Checker(pool, accs, excl);
      var entries := Entries(res);
      (forall k :: 0 <= k < |entries| && check(entries[k]).Stop? && (forall j :: 0 <= j < k ==> Passes(check, entries[j]))
                   ==> v == check(entries[k]).v) &&
      (v == Rejected(EmptyOutfit) <==> entries == []) &&
      (v == Rejected(MissingShoes) <==>
         entries != [] && (forall k :: 0 <= k < |entries| ==> Passes(check, entries[k])) &&
         !(exists k :: 0 <= k < |entries| && AddsShoes(check, entries[k])))
  {
    CheckerVerdicts(Entries(res), pool, accs, excl);
    ConcludeFacts(Entries(res), Checker(pool, accs, excl), res.value.fields);
  }

  /**
   * The closed world: an accepted outfit has one entry per candidate entry,
   * in order; every wardrobe id in it names a clean, non-excluded pool item
   * and every accessory id names an accessory; at least one entry's
   * referenced item is shoes, whatever role the entry claims; and the
   * accessory flag says whether any accessory entry is present.
   */
  lemma AcceptedClosedWorld(res: LlmResult, pool: seq<WardrobeItem>, accs: seq<Accessory>, excl: set<int>)
    requires Validate(res, pool, accs, excl).Accepted?
    ensures SchemaOk(res)
    ensures var out := Validate(res, pool, accs, excl).outfit;
      |out| == |Entries(res)| > 0 &&
      (forall k :: 0 <= k < |out| ==>
         CheckEntry(Entries(res)[k], pool, accs, excl).Continue? && out[k] == CheckEntry(Entries(res)[k], pool, accs, excl).entry)
    ensures var out := Validate(res, pool, accs, excl).outfit;
      forall k :: 0 <= k < |out| && out[k].id.ItemRef? ==>
        var item := LookupItem(pool, out[k].id.n);
        item.Some? && item.value in pool && IsClean(item.value) && out[k].id.n !in excl
    ensures var out := Validate(res, pool, accs, excl).outfit;
      forall k :: 0 <= k < |out| && out[k].id.AccessoryRef? ==> exists a :: a in accs && a.oid == Some(out[k].id.s)
    ensures var out := Validate(res, pool, accs, excl).outfit;
      exists k :: 0 <= k < |out| && out[k].id.ItemRef? && LookupItem(pool, out[k].id.n).Some? &&
        HasKind(LookupItem(pool, out[k].id.n).value, "shoes")
    ensures var v := Validate(res, pool, accs, excl);
      v.hasAccessory <==> exists k :: 0 <= k < |v.outfit| && v.outfit[k].id.AccessoryRef?
  {
    var entries := Entries(res);
    var check := Checker(pool, accs, excl);
    CheckerVerdicts(entries, pool, accs, excl);
    ConcludeFacts(entries, check, res.value.fields);
    var v := Validate(res, pool, accs, excl);
    var out := v.outfit;
    AcceptedEntries(entries, out, pool, accs, excl);
  }

  /**
   * The converse, and the absence of any cap: once the prechecks pass, a
   * candidate whose entries all pass and one of which references shoes is
   * accepted with every entry kept, however many shoes or accessory entries
   * it holds.
   */
  lemma AllPassAccepted(res: LlmResult, pool: seq<WardrobeItem>, accs: seq<Accessory>, excl: set<int>)
    requires SchemaOk(res) && AnyCleanShoes(pool)
    requires forall k :: 0 <= k < |Entries(res)| ==> Passes(Checker(pool, accs, excl), Entries(res)[k])
    requires exists k :: 0 <= k < |Entries(res)| && AddsShoes(Checker(pool, accs, excl), Entries(res)[k])
    ensures Validate(res, pool, accs, excl).Accepted?
    ensures |Validate(res, pool, accs, excl).outfit| == |Entries(res)|
  {
    ConcludeAccepts(Entries(res), Checker(pool, accs, excl), res.value.fields);
  }

  lemma ConcludeAccepts(entries: seq<Json>, check: Json -> Step, m: map<string, Json>)
    requires forall k :: 0 <= k < |entries| ==> Passes(check, entries[k])
    requires exists k :: 0 <= k < |entries| && AddsShoes(check, entries[k])
    ensures Conclude(Scan(entries, 0, check, [], false, false), m).Accepted?
    ensures |Conclude(Scan(entries, 0, check, [], false, false), m).outfit| == |entries|
  {
    AllPassDone(entries, 0, check, [], false, false);
    ScanDone(entries, 0, check, [], false, false);
  }

  /** The closed-world facts for a list of enriched entries that all passed the check. */
  lemma AcceptedEntries(entries: seq<Json>, out: seq<Entry>, pool: seq<WardrobeItem>, accs: seq<Accessory>, excl: set<int>)
    requires |out| == |entries|
    requires forall k :: 0 <= k < |entries| ==> CheckEntry(entries[k], pool, accs, excl).Continue? &&
                                                out[k] == CheckEntry(entries[k], pool, accs, excl).entry
    ensures forall k :: 0 <= k < |out| && out[k].id.ItemRef? ==>
      var item := LookupItem(pool, out[k].id.n);
      item.Some? && item.value in pool && IsClean(item.value) && out[k].id.n !in excl
    ensures forall k :: 0 <= k < |out| && out[k].id.AccessoryRef? ==> exists a :: a in accs && a.oid == Some(out[k].id.s)
    ensures forall k :: 0 <= k < |out| ==>
      (CheckEntry(entries[k], pool, accs, excl).isShoes ==>
         out[k].id.ItemRef? && LookupItem(pool, out[k].id.n).Some? && HasKind(LookupItem(pool, out[k].id.n).value, "shoes")) &&
      (CheckEntry(entries[k], pool, accs, excl).isAccessory <==> out[k].id.AccessoryRef?)
  {
    forall k | 0 <= k < |out| && out[k].id.AccessoryRef?
      ensures exists a :: a in accs && a.oid == Some(out[k].id.s)
    {
      assert LookupAccessory(accs, out[k].id.s).Some?;
    }
  }

  /**
   * Inside the pipeline the pool has already lost the excluded ids and the
   * dirty items, so `used_excluded`, `dirty_item` and `no_clean_shoes` can
   * never be reported.
   */
  lemma PipelineRejections(res: LlmResult, items: seq<WardrobeItem>, occasion: string, excl: set<int>, accs: seq<Accessory>)
    ensures var v := Validate(res, Pool(items, occasion, excl), accs, excl);
      !(v.Rejected? && (v.why.UsedExcluded? || v.why.DirtyItem? || v.why == NoCleanShoes))
  {
    var pool := Pool(items, occasion, excl);
    PoolShoesClean(items, occasion, excl);
    if SchemaOk(res) {
      PipelineScan(Entries(res), items, occasion, excl, accs);
    }
    RejectionsFromScan(res, pool, accs, excl);
  }

  predicate NotExcludedOrDirty(v: Validation)
  {
    !(v.Rejected? && (v.why.UsedExcluded? || v.why.DirtyItem?))
  }

  /** The verdict is never `no_clean_shoes`, excluded or dirty when the pool's shoes are clean and the scan never halts that way. */
  lemma RejectionsFromScan(res: LlmResult, pool: seq<WardrobeItem>, accs: seq<Accessory>, excl: set<int>)
    requires AnyShoes(pool) ==> AnyCleanShoes(pool)
    requires SchemaOk(res) ==>
      var sc := Scan(Entries(res), 0, Checker(pool, accs, excl), [], false, false);
      sc.Halted? ==> NotExcludedOrDirty(sc.v) && EntryVerdict(sc.v)
    ensures var v := Validate(res, pool, accs, excl);
      NotExcludedOrDirty(v) && v != Rejected(NoCleanShoes)
  {
    if Precheck(res, pool).None? {
      ConcludeKeeps(Scan(Entries(res), 0, Checker(pool, accs, excl), [], false, false), res.value.fields);
    }
  }

  lemma ConcludeKeeps(sc: ScanState, m: map<string, Json>)
    requires sc.Halted? ==> NotExcludedOrDirty(sc.v) && EntryVerdict(sc.v)
    ensures NotExcludedOrDirty(Conclude(sc, m)) && Conclude(sc, m) != Rejected(NoCleanShoes)
  {
  }

  /** Every item in the pipeline's pool is clean, so shoes in it are clean shoes. */
  lemma PoolShoesClean(items: seq<WardrobeItem>, occasion: string, excl: set<int>)
    ensures AnyShoes(Pool(items, occasion, excl)) ==> AnyCleanShoes(Pool(items, occasion, excl))
  {
    var pool := Pool(items, occasion, excl);
    PoolMembers(items, occasion, excl);
    if AnyShoes(pool) {
      var k :| 0 <= k < |pool| && HasKind(pool[k], "shoes");
      assert pool[k] in pool;
    }
  }

  /** A scan against the pipeline's pool never halts as excluded or dirty. */
  lemma PipelineScan(entries: seq<Json>, items: seq<WardrobeItem>, occasion: string, excl: set<int>, accs: seq<Accessory>)
    ensures var sc := Scan(entries, 0, Checker(Pool(items, occasion, excl), accs, excl), [], false, false);
      sc.Halted? ==> NotExcludedOrDirty(sc.v) && EntryVerdict(sc.v)
  {
    var check := Checker(Pool(items, occasion, excl), accs, excl);
    var sc := Scan(entries, 0, check, [], false, false);
    if sc.Halted? {
      ScanHalted(entries, 0, check, [], false, false);
      var k :| 0 <= k < |entries| && check(entries[k]).Stop? && sc.v == check(entries[k]).v;
      PoolEntryVerdict(entries[k], items, occasion, excl, accs);
    }
  }

  /** No entry checked against the pipeline's pool is rejected as excluded or dirty. */
  lemma PoolEntryVerdict(e: Json, items: seq<WardrobeItem>, occasion: string, excl: set<int>, accs: seq<Accessory>)
    ensures var r := CheckEntry(e, Pool(items, occasion, excl), accs, excl);
      !(r.Stop? && r.v.Rejected? && (r.v.why.UsedExcluded? || r.v.why.DirtyItem?))
  {
    var pool := Pool(items, occasion, excl);
    PoolMembers(items, occasion, excl);
    if e.JObj? && RoleOf(e.fields).Some? && RoleOf(e.fields).value != "accessory" {
      var n := ToInt(Get(e.fields, "id"));
      if n.Some? && LookupItem(pool, n.value).Some? {
        var item := LookupItem(pool, n.value).value;
        assert item in pool;
      }
    }
  }

  /** An entry naming an excluded wardrobe id, checked against the pipeline's pool, is reported as an unknown item. */
  lemma ExcludedIsUnknown(e: Json, items: seq<WardrobeItem>, occasion: string, excl: set<int>, accs: seq<Accessory>)
    requires e.JObj? && RoleOf(e.fields).Some? && RoleOf(e.fields).value != "accessory"
    requires ToInt(Get(e.fields, "id")).Some? && ToInt(Get(e.fields, "id")).value in excl
    ensures CheckEntry(e, Pool(items, occasion, excl), accs, excl) == Stop(Rejected(UnknownItem(Get(e.fields, "id"))))
  {
    PoolMembers(items, occasion, excl);
  }
}

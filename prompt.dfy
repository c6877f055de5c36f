/**
 * The accessory icon classifier and the prompt payload sent to the
 * generative model. The payload is a record; its JSON serialisation is not
 * part of the model.
 */
module Prompt {
  import opened Wrappers
  import opened Text
  import opened Domain

  /** The display icons an accessory can get. */
  datatype Icon = Sunglasses | Watch | Bag | Hat | Scarf | Belt | Umbrella | Jewelry | Sparkles

  /** The emoji shown for each icon. */
  function Glyph(i: Icon): string
  {
    match i
    case Sunglasses => "\U{1F576}\U{FE0F}"
    case Watch => "\U{231A}"
    case Bag => "\U{1F45C}"
    case Hat => "\U{1F9E2}"
    case Scarf => "\U{1F9E3}"
    case Belt => "\U{1F9F7}"
    case Umbrella => "\U{2602}\U{FE0F}"
    case Jewelry => "\U{1F48E}"
    case Sparkles => "\U{2728}"
  }

  /** `any(k in text for k in keywords)`. */
  predicate MentionsAny(text: string, keywords: seq<string>)
  {
    keywords != [] && (Contains(text, keywords[0]) || MentionsAny(text, keywords[1..]))
  }

  /** The text the classifier searches: `f"{type} {name}".strip().lower()`. */
  function IconText(a: Accessory): string
  {
    Lower(Strip(a.kind + " " + a.name, PySpace))
  }

  /** `_accessory_icon`: the first keyword group that occurs in the text decides the icon. */
  function AccessoryIcon(a: Accessory): Icon
  {
    var text := IconText(a);
    if MentionsAny(text, ["sunglass", "sunglasses"]) then Sunglasses
    else if MentionsAny(text, ["watch"]) then Watch
    else if MentionsAny(text, ["bag", "handbag", "purse", "clutch"]) then Bag
    else if MentionsAny(text, ["hat", "cap", "beanie"]) then Hat
    else if MentionsAny(text, ["scarf"]) then Scarf
    else if MentionsAny(text, ["belt"]) then Belt
    else if MentionsAny(text, ["umbrella"]) then Umbrella
    else if MentionsAny(text, ["ring", "necklace", "earring", "jewelry", "jewellery"]) then Jewelry
    else Sparkles
  }

  /** The keyword groups in priority order, as a table. */
  const IconTable: seq<(seq<string>, Icon)> := [
    (["sunglass", "sunglasses"], Sunglasses),
    (["watch"], Watch),
    (["bag", "handbag", "purse", "clutch"], Bag),
    (["hat", "cap", "beanie"], Hat),
    (["scarf"], Scarf),
    (["belt"], Belt),
    (["umbrella"], Umbrella),
    (["ring", "necklace", "earring", "jewelry", "jewellery"], Jewelry)
  ]

  /** Reference definition: scan a table of keyword groups and take the first group that occurs. */
  function FirstMatch(text: string, table: seq<(seq<string>, Icon)>): Icon
  {
    if table == [] then Sparkles
    else if MentionsAny(text, table[0].0) then table[0].1
    else FirstMatch(text, table[1..])
  }

  lemma {:induction false} FirstMatchPicksFirst(text: string, table: seq<(seq<string>, Icon)>, k: nat)
    requires k < |table| && MentionsAny(text, table[k].0)
    requires forall j :: 0 <= j < k ==> !MentionsAny(text, table[j].0)
    ensures FirstMatch(text, table) == table[k].1
  {
    if k > 0 {
      FirstMatchPicksFirst(text, table[1..], k - 1);
    }
  }

  lemma {:induction false} FirstMatchDefault(text: string, table: seq<(seq<string>, Icon)>)
    requires forall j :: 0 <= j < |table| ==> !MentionsAny(text, table[j].0)
    ensures FirstMatch(text, table) == Sparkles
  {
    if table != [] {
      FirstMatchDefault(text, table[1..]);
    }
  }

  lemma FirstMatchStep(text: string, table: seq<(seq<string>, Icon)>, i: nat)
    requires i < |table|
    ensures FirstMatch(text, table[i..])
         == if MentionsAny(text, table[i].0) then table[i].1 else FirstMatch(text, table[i + 1..])
  {
    assert table[i..][1..] == table[i + 1..];
  }

  lemma AccessoryIconIsTableScan(a: Accessory)
    ensures AccessoryIcon(a) == FirstMatch(IconText(a), IconTable)
  {
    var t := IconText(a);
    var tb := IconTable;
    assert tb[8..] == [];
    FirstMatchStep(t, tb, 7);
    FirstMatchStep(t, tb, 6);
    FirstMatchStep(t, tb, 5);
    FirstMatchStep(t, tb, 4);
    FirstMatchStep(t, tb, 3);
    FirstMatchStep(t, tb, 2);
    FirstMatchStep(t, tb, 1);
    FirstMatchStep(t, tb, 0);
    assert tb[0..] == tb;
  }

  /**
   * The icon is that of the first keyword group, in the fixed order sunglass,
   * watch, bag, hat, scarf, belt, umbrella, jewelry, that occurs in the
   * lower-cased "type name" text; with no group occurring it is the default.
   */
  lemma AccessoryIconFirstGroupWins(a: Accessory, k: nat)
    requires k < |IconTable| && MentionsAny(IconText(a), IconTable[k].0)
    requires forall j :: 0 <= j < k ==> !MentionsAny(IconText(a), IconTable[j].0)
    ensures AccessoryIcon(a) == IconTable[k].1
  {
    AccessoryIconIsTableScan(a);
    FirstMatchPicksFirst(IconText(a), IconTable, k);
  }

  lemma AccessoryIconDefault(a: Accessory)
    requires forall j :: 0 <= j < |IconTable| ==> !MentionsAny(IconText(a), IconTable[j].0)
    ensures AccessoryIcon(a) == Sparkles
  {
    AccessoryIconIsTableScan(a);
    FirstMatchDefault(IconText(a), IconTable);
  }

  /** A wardrobe item as listed in the prompt. */
  datatype ItemShort = ItemShort(id: Option<int>, name: string, kind: string, category: string, color: string)

  /** An accessory as listed in the prompt; its id is always present and a string. */
  datatype AccessoryShort = AccessoryShort(id: string, name: string, kind: string)

  /**
   * The JSON object `_build_prompt` serialises, as a record. The record keeps
   * the corrective clause; `InstructionOf` gives the instruction text the
   * object carries.
   */
  datatype PromptPayload = PromptPayload(
    clause: Option<string>,
    items: seq<ItemShort>,
    accessories: seq<AccessoryShort>,
    weather: string,
    occasion: string)

  /** The fixed instruction block that opens every prompt. */
  const BaseInstruction: string :=
    "You are a helpful wardrobe assistant. Return ONLY valid JSON (no extra text).\n"
    + "Use ONLY the provided wardrobe items (by id).\n"
    + "If the accessories list is non-empty, INCLUDE 1 accessory in most outfits (by id).\n"
    + "You may omit accessories only when clearly inappropriate (e.g., Gym) or if none are provided.\n"
    + "Never include more than 2 accessories.\n"
    + "IMPORTANT: Always include exactly one shoes item (type='shoes') if any shoes exist.\n"
    + "If no shoes exist in the wardrobe, return JSON with an 'error' telling the user to add shoes.\n"
    + "Input fields: 'items' (list of available wardrobe items with id,name,type,category,color),\n"
    + "'accessories' (list of optional accessories with id,name,type),\n"
    + "'weather' (string, e.g., 'Clear, 12\U{B0}C'), and 'occasion' (string).\n"
    + "Output schema:\n"
    + "{\n"
    + "  \"outfit\": [ { role, id, reason } ],\n"
    + "  \"explanation\": string (optional),\n"
    + "  \"score\": float between 0 and 1 (optional)\n"
    + "}\n"
    + "Roles should be one of: top,bottom,onepiece,outer,shoes,accessory.\n"
    + "Wardrobe item ids are numbers. Accessory ids are strings (ObjectId).\n"
    + "Make it weather/occasion appropriate.\n"
    + "If you cannot assemble an outfit from the provided items, return JSON with an 'error' key describing why."

  function ShortItem(i: WardrobeItem): ItemShort
  {
    ItemShort(i.id, i.name, i.kind, i.category, i.color)
  }

  /** Every wardrobe item, shortened, in order. */
  function ShortItems(items: seq<WardrobeItem>): (r: seq<ItemShort>)
    ensures |r| == |items| && forall j :: 0 <= j < |items| ==> r[j] == ShortItem(items[j])
  {
    if items == [] then [] else [ShortItem(items[0])] + ShortItems(items[1..])
  }

  /** The accessories that have an id, shortened; those without one are skipped. */
  function ShortAccessories(accs: seq<Accessory>): (r: seq<AccessoryShort>)
    ensures |r| == |AccessoryIds(accs)|
    ensures forall j :: 0 <= j < |r| ==> r[j].id == AccessoryIds(accs)[j]
    ensures |r| == |Identified(accs)|
    ensures forall j :: 0 <= j < |r| ==>
      Identified(accs)[j].oid == Some(r[j].id) && r[j].name == Identified(accs)[j].name && r[j].kind == Identified(accs)[j].kind
  {
    var kept := Identified(accs);
    seq(|kept|, j requires 0 <= j < |kept| => AccessoryShort(kept[j].oid.value, kept[j].name, kept[j].kind))
  }


  /** The instruction text: the fixed block, then the stripped corrective clause after a blank line. */
  function Instruction(extra: Option<string>): (text: string)
    ensures StartsWith(text, BaseInstruction)
    ensures (extra == None || extra == Some("")) <==> text == BaseInstruction
    ensures extra.Some? && extra.value != "" ==> text == BaseInstruction + "\n\n" + Strip(extra.value, PySpace)
  {
    WithClause(BaseInstruction, extra)
  }

  /** `base`, followed by a blank line and the stripped clause when the clause is a non-empty string. */
  function WithClause(base: string, extra: Option<string>): (text: string)
    ensures StartsWith(text, base)
    ensures (extra == None || extra == Some("")) <==> text == base
    ensures extra.Some? && extra.value != "" ==> text == base + "\n\n" + Strip(extra.value, PySpace)
  {
    if extra.Some? && extra.value != "" then
      var text := base + "\n\n" + Strip(extra.value, PySpace);
      assert |text| > |base|;
      assert text[..|base|] == base;
      text
    else base
  }

  /** `_build_prompt`; `extra` is the optional corrective clause. */
  function BuildPrompt(items: seq<WardrobeItem>, accs: seq<Accessory>, weather: string, occasion: string,
                       extra: Option<string>): (p: PromptPayload)
    ensures p.clause == extra
    ensures |p.items| == |items| && forall j :: 0 <= j < |items| ==> p.items[j].id == items[j].id
    ensures forall a :: a in p.accessories ==> a.id in AccessoryIds(accs)
    ensures p.weather == weather && p.occasion == occasion
    ensures p.items == ShortItems(items) && p.accessories == ShortAccessories(accs)
  {
    PromptPayload(extra, ShortItems(items), ShortAccessories(accs), weather, occasion)
  }

  /** The payload's "instruction" string. */
  function InstructionOf(p: PromptPayload): string
  {
    Instruction(p.clause)
  }

  /** Every prompt opens with the fixed instruction block; the corrective clause, when present, follows it. */
  lemma PromptInstruction(items: seq<WardrobeItem>, accs: seq<Accessory>, weather: string, occasion: string,
                          extra: Option<string>)
    ensures StartsWith(InstructionOf(BuildPrompt(items, accs, weather, occasion, extra)), BaseInstruction)
    ensures (extra == None || extra == Some("")) <==>
      InstructionOf(BuildPrompt(items, accs, weather, occasion, extra)) == BaseInstruction
    ensures extra.Some? && extra.value != "" ==>
      InstructionOf(BuildPrompt(items, accs, weather, occasion, extra)) == BaseInstruction + "\n\n" + Strip(extra.value, PySpace)
  {
  }
}

/**
 * The inventory records the outfit pipeline reads: wardrobe items and
 * accessories as the inventory collaborators return them, and the tests the
 * pipeline applies to them.
 */
module Domain {
  import opened Wrappers
  import opened Text
  import opened Seqs

  /**
   * A wardrobe item. `kind` is the item's `type` field (top, bottom, onepiece,
   * outer, shoes). A missing text field is the empty string; `id` is `None`
   * when the record has no id.
   */
  datatype WardrobeItem = WardrobeItem(
    id: Option<int>,
    name: string,
    category: string,
    kind: string,
    color: string,
    status: string,
    icon: string)

  /** An accessory. `oid` is the string form of its database id, `None` when it has none. */
  datatype Accessory = Accessory(oid: Option<string>, name: string, kind: string)

  /** `str(i.get('status', '')).lower() == 'clean'`. */
  predicate IsClean(i: WardrobeItem)
  {
    Lower(i.status) == "clean"
  }

  /** The lower-cased type equals `t`. */
  predicate HasKind(i: WardrobeItem, t: string)
  {
    Lower(i.kind) == t
  }

  /**
   * The ids of the accessories that have one, in list order, as strings: the
   * shortlist offered to the model, the lookup table the validator checks
   * accessory entries against, and the list named in the accessory pass.
   */
  function AccessoryIds(accs: seq<Accessory>): (ids: seq<string>)
    ensures |ids| <= |accs|
    ensures forall s :: s in ids <==> exists a :: a in accs && a.oid == Some(s)
  {
    if accs == [] then []
    else
      var rest := AccessoryIds(accs[1..]);
      assert forall a :: a in accs <==> a == accs[0] || a in accs[1..];
      if accs[0].oid.Some? then [accs[0].oid.value] + rest else rest
  }

  predicate HasOid(a: Accessory)
  {
    a.oid.Some?
  }

  /** The accessories that carry an id, in order: the ones listed by id, position by position. */
  function Identified(accs: seq<Accessory>): (r: seq<Accessory>)
    ensures r == Filter(accs, HasOid)
    ensures forall a :: a in r <==> a in accs && a.oid.Some?
    ensures |r| == |AccessoryIds(accs)|
    ensures forall j :: 0 <= j < |r| ==> r[j].oid == Some(AccessoryIds(accs)[j])
  {
    if accs == [] then []
    else
      var rest := Identified(accs[1..]);
      assert forall a :: a in accs <==> a == accs[0] || a in accs[1..];
      assert Filter(accs, HasOid) == (if HasOid(accs[0]) then [accs[0]] else []) + Filter(accs[1..], HasOid);
      if accs[0].oid.Some? then
        assert AccessoryIds(accs) == [accs[0].oid.value] + AccessoryIds(accs[1..]);
        [accs[0]] + rest
      else
        assert AccessoryIds(accs) == AccessoryIds(accs[1..]);
        rest
  }
}

/** Lead attribute lists: building the outbound list from an associative
    array (lead_record) and flattening an inbound list into an associative
    array (flatten_attributes). */
module LeadAttributes {
  import opened Wrappers
  import opened PhpArrays
  import opened PhpValues

  /** One `{attrName, attrValue, attrType}` entry of a lead's attribute list. */
  datatype Attribute = Attribute(attrName: string, attrValue: Value, attrType: Option<string>)

  /** One element the loop of flatten_attributes visits: an attribute
      object, or anything else, whose properties PHP reads as null. */
  datatype Item = Obj(attr: Attribute) | NonObject(value: Value)

  /** The `attribute` property of a lead's `leadAttributeList` as the SOAP
      engine decodes it: absent, a lone object (one attribute), or an array. */
  datatype AttributeField = Missing | Lone(attr: Attribute) | Many(items: seq<Item>)

  /** The outbound lead object of lead_record. */
  datatype OutboundLead = OutboundLead(Email: string, leadAttributeList: seq<Attribute>)

  // ---------------------------------------------------------------------
  // lead_record

  /** The wire entry for one name/value pair: a boolean becomes the text of
      `intval` tagged "boolean"; anything else passes untagged. */
  function WireAttribute(name: string, value: Value): Attribute
  {
    if value.VBool? then Attribute(name, Cast(Cast(value, Integer), String), Some("boolean"))
    else Attribute(name, value, None)
  }

  /** lead_record: the given email, and one wire entry per array element in
      the array's order. Booleans travel as "1"/"0" tagged "boolean"; every
      other value travels unchanged with a null tag. */
  function LeadRecord(email: string, lead: seq<(string, Value)>): (r: OutboundLead)
    ensures r.Email == email
    ensures |r.leadAttributeList| == |lead|
    ensures forall i | 0 <= i < |lead| :: r.leadAttributeList[i].attrName == lead[i].0
    ensures forall i | 0 <= i < |lead| && lead[i].1.VBool? ::
      && r.leadAttributeList[i].attrValue == VStr(if lead[i].1.b then "1" else "0")
      && r.leadAttributeList[i].attrType == Some("boolean")
    ensures forall i | 0 <= i < |lead| && !lead[i].1.VBool? ::
      && r.leadAttributeList[i].attrValue == lead[i].1
      && r.leadAttributeList[i].attrType == None
  {
    BooleanWireForm(true);
    BooleanWireForm(false);
    OutboundLead(email, seq(|lead|, i requires 0 <= i < |lead| => WireAttribute(lead[i].0, lead[i].1)))
  }

  // ---------------------------------------------------------------------
  // flatten_attributes

  /** The array key an element is stored under; a non-object has a null
      name, which PHP turns into the key "". */
  function ItemKey(item: Item): string
  {
    match item
    case Obj(a) => a.attrName
    case NonObject(_) => ""
  }

  /** The value an element is stored as: cast to the type its tag names
      when the tag is integer, string, boolean or float; otherwise the value
      as received; null for a non-object. */
  function StoredValue(item: Item): (v: Value)
    ensures item.NonObject? ==> v == VNull
    ensures item.Obj? && (item.attr.attrType.None? || item.attr.attrType.value !in CastTags) ==>
      v == item.attr.attrValue
    ensures item.Obj? && item.attr.attrType.Some? && item.attr.attrType.value in CastTags ==>
      forall t | TypeName(t) == item.attr.attrType.value :: HasType(v, t) && v == Cast(item.attr.attrValue, t)
  {
    match item
    case NonObject(_) => VNull
    case Obj(a) =>
      match CastTarget(a.attrType)
      case Some(t) => Cast(a.attrValue, t)
      case None => a.attrValue
  }

  /** Element i is the last one stored under its key. */
  ghost predicate IsLastItemOfKey(items: seq<Item>, i: int)
    requires 0 <= i < |items|
  {
    forall j | i < j < |items| :: ItemKey(items[j]) != ItemKey(items[i])
  }

  /** The key/value assignments the loop performs, in order: the keys
      assigned are the element keys, and an assignment is the last one to
      its key exactly when its element is the last with that key. */
  function Assignments(items: seq<Item>): (ps: seq<(string, Value)>)
    ensures |ps| == |items|
    ensures forall i | 0 <= i < |items| :: ps[i] == (ItemKey(items[i]), StoredValue(items[i]))
    ensures KeysOf(ps) == set i | 0 <= i < |items| :: ItemKey(items[i])
    ensures forall i | 0 <= i < |items| :: IsLastOfKey(ps, i) <==> IsLastItemOfKey(items, i)
  {
    var ps := seq(|items|, i requires 0 <= i < |items| => (ItemKey(items[i]), StoredValue(items[i])));
    assert KeysOf(ps) == set i | 0 <= i < |items| :: ItemKey(items[i]) by {
      forall k | k in KeysOf(ps) ensures exists i | 0 <= i < |items| :: ItemKey(items[i]) == k {
        var i :| 0 <= i < |ps| && ps[i].0 == k;
      }
      forall i | 0 <= i < |items| ensures ItemKey(items[i]) in KeysOf(ps) {
        assert ps[i].0 == ItemKey(items[i]);
      }
    }
    ps
  }

  /** flatten_attributes: one key per distinct name in the list, and each
      key holds the stored value of the LAST element with that name. */
  function Flatten(items: seq<Item>): (m: map<string, Value>)
    ensures m.Keys == set i | 0 <= i < |items| :: ItemKey(items[i])
    ensures forall i | 0 <= i < |items| && IsLastItemOfKey(items, i) ::
      m[ItemKey(items[i])] == StoredValue(items[i])
  {
    LastWins(Assignments(items))
  }

  /** The elements of a list of attribute objects. */
  function Objects(attrs: seq<Attribute>): (items: seq<Item>)
    ensures |items| == |attrs|
    ensures forall i | 0 <= i < |attrs| :: items[i] == Obj(attrs[i])
  {
    seq(|attrs|, i requires 0 <= i < |attrs| => Obj(attrs[i]))
  }

  /** Reading back what lead_record sends gives the array it was built from:
      flattening the built list yields the same associative array. */
  lemma FlattenInvertsLeadRecord(email: string, lead: seq<(string, Value)>)
    ensures Flatten(Objects(LeadRecord(email, lead).leadAttributeList)) == LastWins(lead)
  {
    var items := Objects(LeadRecord(email, lead).leadAttributeList);
    BooleanWireForm(true);
    BooleanWireForm(false);
    forall i | 0 <= i < |lead|
      ensures Assignments(items)[i] == lead[i]
    {
      assert StoredValue(items[i]) == lead[i].1;
    }
    assert Assignments(items) == lead;
  }

  /** The element with its value replaced by the value it is stored as. */
  function Recast(item: Item): (r: Item)
    ensures ItemKey(r) == ItemKey(item)
  {
    match item
    case Obj(a) => Obj(a.(attrValue := StoredValue(item)))
    case NonObject(_) => item
  }

  /** Flattening is idempotent: flattening a list whose values have already
      been cast to their tags gives the same array as flattening the original. */
  lemma FlattenIdempotent(items: seq<Item>)
    ensures Flatten(seq(|items|, i requires 0 <= i < |items| => Recast(items[i]))) == Flatten(items)
  {
    var recast := seq(|items|, i requires 0 <= i < |items| => Recast(items[i]));
    forall i | 0 <= i < |items|
      ensures Assignments(recast)[i] == Assignments(items)[i]
    {
      assert StoredValue(recast[i]) == StoredValue(items[i]);
    }
    assert Assignments(recast) == Assignments(items);
  }

  // ---------------------------------------------------------------------
  // The attribute field of a lead

  /** What the loop of flatten_attributes visits when handed the field as
      written: a lone attribute object is iterated property by property
      (attrName, attrType, attrValue), none of which is an object. */
  function VisitedAsWritten(f: AttributeField): seq<Item>
  {
    match f
    case Missing => []
    case Lone(a) =>
      var tag := if a.attrType.Some? then VStr(a.attrType.value) else VNull;
      [NonObject(VStr(a.attrName)), NonObject(tag), NonObject(a.attrValue)]
    case Many(items) => items
  }

  /** flatten_attributes applied to the field as the source does at
      marketo.php:141 and :203: a lone attribute collapses to `"" => null`
      and its own name is lost. */
  function FlattenFieldAsWritten(f: AttributeField): (m: map<string, Value>)
    ensures f.Lone? ==> m == map["" := VNull]
    ensures !f.Lone? ==> m == FlattenField(f)
  {
    var items := VisitedAsWritten(f);
    if f.Lone? then
      FlattenNonObjects(items);
      Flatten(items)
    else Flatten(items)
  }

  /** A non-empty list holding no attribute object flattens to `"" => null`. */
  lemma FlattenNonObjects(items: seq<Item>)
    requires 0 < |items|
    requires forall i | 0 <= i < |items| :: items[i].NonObject?
    ensures Flatten(items) == map["" := VNull]
  {
    var n := |items| - 1;
    assert ItemKey(items[n]) == "";
    assert IsLastItemOfKey(items, n);
    assert (set i | 0 <= i < |items| :: ItemKey(items[i])) == {""};
  }

  /** The elements of the field with a lone attribute object wrapped into a
      one-element list, as format_leads already does for a lone lead. */
  function Visited(f: AttributeField): seq<Item>
  {
    match f
    case Missing => []
    case Lone(a) => [Obj(a)]
    case Many(items) => items
  }

  /** The flattening of a lead's attribute field: nothing when absent, the
      lone attribute as a one-entry array, the list flattened otherwise. */
  function FlattenField(f: AttributeField): (m: map<string, Value>)
    ensures f.Missing? ==> m == map[]
    ensures f.Lone? ==> m == map[f.attr.attrName := StoredValue(Obj(f.attr))]
    ensures f.Many? ==> m == Flatten(f.items)
  {
    var items := Visited(f);
    if f.Lone? then
      assert IsLastItemOfKey(items, 0);
      Flatten(items)
    else Flatten(items)
  }

  /** The lead with a single attribute: the source as written drops the
      attribute's name, the corrected flattening keeps it with its value. */
  lemma LoneAttributeLostAsWritten(a: Attribute)
    requires a.attrName != ""
    ensures a.attrName !in FlattenFieldAsWritten(Lone(a))
    ensures a.attrName in FlattenField(Lone(a))
    ensures FlattenFieldAsWritten(Lone(a)) != FlattenField(Lone(a))
  {
  }
}

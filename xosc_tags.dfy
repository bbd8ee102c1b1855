/**
 * The tag and metadata rules of the OpenSCENARIO extractor
 * (meta_data_extractor/xosc/extract_osc.py): configuration lookup, the
 * OpenLABEL tag records and how they are added to the `tags` dict, the
 * reduction of a list of environment values to one tag, the road-user
 * taxonomy, the time-of-day buckets, the search for a tag by type, and the
 * header and link records of the scenario manifest.
 *
 * Dicts and sets the source fills in place are passed in and returned; the
 * uuid the source draws for each new tag is a parameter.
 */
module XoscTags {
  import opened Wrappers
  import opened ODict
  import opened PyStr
  import opened JsonValue

  // -------------------------------------------------------- get_conf_value

  /** The value reached from `c` by following `keys` from index `i` on; None as
      soon as a key is missing. Indexing something that is not a dict raises. */
  function ConfPath(c: Json, keys: seq<string>, i: nat): Result<Option<Json>>
    requires i <= |keys|
    decreases |keys| - i
  {
    if i == |keys| then Ok(Some(c))
    else
      var found :- In(keys[i], c);
      if !found then Ok(None)
      else
        var next :- Index(c, keys[i]);
        ConfPath(next, keys, i + 1)
  }

  /** What `get_conf_value` returns for a lookup outcome. */
  function ConfResult(conf: Json, reached: Option<Json>, default: Json): Json
  {
    match reached
    case None => default
    case Some(v) => if v != conf then v else default
  }

  /** `get_conf_value`: follows the `/`-separated keys through the configuration. */
  method GetConfValue(conf: Json, key: string, default: Json) returns (r: Result<Json>)
    ensures ConfPath(conf, Split(key, "/"), 0).Err? ==> r == Err(ConfPath(conf, Split(key, "/"), 0).error)
    ensures ConfPath(conf, Split(key, "/"), 0).Ok? ==> r == Ok(ConfResult(conf, ConfPath(conf, Split(key, "/"), 0).value, default))
  {
    var keys := Split(key, "/");
    var c := conf;
    var i := 0;
    while i < |keys|
      invariant i <= |keys|
      invariant ConfPath(conf, keys, 0) == ConfPath(c, keys, i)
    {
      var found :- In(keys[i], c);
      if !found {
        return Ok(default);
      }
      c :- Index(c, keys[i]);
      i := i + 1;
    }
    if c != conf {
      return Ok(c);
    }
    return Ok(default);
  }

  /** A value reached through at least one key lies strictly inside the start. */
  lemma {:induction false} ConfPathInside(c: Json, keys: seq<string>, i: nat)
    requires i < |keys| && ConfPath(c, keys, i).Ok? && ConfPath(c, keys, i).value.Some?
    ensures ConfPath(c, keys, i).value.value < c
    decreases |keys| - i
  {
    IndexSmaller(c, keys[i]);
    var next := Index(c, keys[i]).value;
    if i + 1 < |keys| {
      ConfPathInside(next, keys, i + 1);
    }
  }

  /** When every key is found the reached value is returned, never the default;
      when a key is missing (in a dict) the default is returned. */
  lemma ConfFoundOrDefault(conf: Json, key: string, default: Json)
    requires ConfPath(conf, Split(key, "/"), 0).Ok?
    ensures var reached := ConfPath(conf, Split(key, "/"), 0).value;
            ConfResult(conf, reached, default) == if reached.Some? then reached.value else default
  {
    var reached := ConfPath(conf, Split(key, "/"), 0).value;
    if reached.Some? {
      ConfPathInside(conf, Split(key, "/"), 0);
    }
  }

  /** A path of dict keys that are all present reaches the innermost value. */
  lemma ConfPathTwoLevels(a: string, b: string, v: Json, rest: Dict<Json>, rest2: Dict<Json>)
    requires '/' !in a && '/' !in b
    ensures ConfPath(JObj([(a, JObj([(b, v)] + rest2))] + rest), Split(a + "/" + b, "/"), 0) == Ok(Some(v))
  {
    SplitAppend(a, '/', b);
    SplitNoSep(a, '/');
    assert a + "/" + b == a + ['/'] + b;
    var keys := Split(a + "/" + b, "/");
    assert keys == [a, b];
    var inner := JObj([(b, v)] + rest2);
    var outer := JObj([(a, inner)] + rest);
    assert Keys(outer.fields)[0] == a;
    assert In(a, outer) == Ok(true);
    assert Index(outer, a) == Ok(inner);
    assert Keys(inner.fields)[0] == b;
    assert In(b, inner) == Ok(true);
    assert Index(inner, b) == Ok(v);
    assert ConfPath(v, keys, 2) == Ok(Some(v));
    assert ConfPath(inner, keys, 1) == Ok(Some(v));
  }

  // ------------------------------------------------------------- tag records

  /** One value of a list tag: its `val`, and the optional `name`,
      `coordinate_system` and `type` written next to it. */
  datatype TagValue = TagValue(val: Json, name: Option<string>, coordinateSystem: Option<string>, vtype: Option<string>)

  datatype TagKind = KBoolean | KNum | KText | KVec

  /** The tag payloads: a plain string, or a list of values of one kind. A list
      entry may be Python None. */
  datatype TagData =
    | StringTag(value: Option<string>)
    | ListTag(kind: TagKind, values: seq<Option<TagValue>>)

  function KindLabel(k: TagKind): string
  {
    match k
    case KBoolean => "boolean"
    case KNum => "num"
    case KText => "text"
    case KVec => "vec"
  }

  /** `is_empty`: a string tag without value; a list tag without values; a text
      tag also when every value is None or has a None value. */
  predicate IsEmpty(t: TagData)
  {
    match t
    case StringTag(v) => v.None?
    case ListTag(k, vs) =>
      |vs| == 0 || (k == KText && forall i :: 0 <= i < |vs| ==> vs[i].None? || vs[i].value.val == JNull)
  }

  /** `to_dict` of a tag value: `val` first, then the optional fields that are set. */
  function ValueDict(v: TagValue): (r: Dict<Json>)
    ensures |r| >= 1 && r[0] == ("val", v.val)
    ensures UniqueKeys(r)
  {
    [("val", v.val)]
    + (if v.name.Some? then [("name", JStr(v.name.value))] else [])
    + (if v.coordinateSystem.Some? then [("coordinate_system", JStr(v.coordinateSystem.value))] else [])
    + (if v.vtype.Some? then [("type", JStr(v.vtype.value))] else [])
  }

  /** The `tag_data` entry `fill_tag_data` writes; a None value raises. */
  function TagPayload(t: TagData): Result<Json>
  {
    match t
    case StringTag(v) => Ok(if v.Some? then JStr(v.value) else JNull)
    case ListTag(k, vs) =>
      if exists i :: 0 <= i < |vs| && vs[i].None? then Err(AttributeError("'NoneType' object has no attribute 'to_dict'"))
      else Ok(JObj([(KindLabel(k), JArr(seq(|vs|, i requires 0 <= i < |vs| => JObj(ValueDict(vs[i].value)))))]))
  }

  /** `fill_tag_data`: writes the payload under `tag_data`. */
  method FillTagData(t: TagData, d: Dict<Json>) returns (r: Result<Dict<Json>>)
    ensures TagPayload(t).Err? ==> r == Err(TagPayload(t).error)
    ensures TagPayload(t).Ok? ==> r == Ok(Put(d, "tag_data", TagPayload(t).value))
  {
    match t {
      case StringTag(v) =>
        return Ok(Put(d, "tag_data", if v.Some? then JStr(v.value) else JNull));
      case ListTag(k, vs) =>
        var items: seq<Json> := [];
        for i := 0 to |vs|
          invariant |items| == i
          invariant forall j :: 0 <= j < i ==> vs[j].Some? && items[j] == JObj(ValueDict(vs[j].value))
        {
          if vs[i].None? {
            return Err(AttributeError("'NoneType' object has no attribute 'to_dict'"));
          }
          items := items + [JObj(ValueDict(vs[i].value))];
        }
        assert items == seq(|vs|, i requires 0 <= i < |vs| => JObj(ValueDict(vs[i].value)));
        return Ok(Put(d, "tag_data", JObj([(KindLabel(k), JArr(items))])));
    }
  }

  /** `d[k] = v` for every item of `atts` from index `i` on, in order. */
  function PutAll(d: Dict<Json>, atts: Dict<Json>, i: nat): Dict<Json>
    requires i <= |atts|
    decreases |atts| - i
  {
    if i == |atts| then d else PutAll(Put(d, atts[i].0, atts[i].1), atts, i + 1)
  }

  /** The record `add_tag` stores: the ontology id, the payload, the extra attributes. */
  function TagEntry(uid: string, payload: Json, atts: Dict<Json>): Dict<Json>
  {
    PutAll([("ontology_uid", JStr(uid)), ("tag_data", payload)], atts, 0)
  }

  /** `add_tag`: the new tags and the id returned (None when nothing was added). */
  function AddTagSpec(tags: Dict<Json>, uid: string, tag: Option<TagData>, atts: Dict<Json>, id: string)
    : Result<(Dict<Json>, Option<string>)>
  {
    if tag.None? || IsEmpty(tag.value) then Ok((tags, None))
    else
      var payload :- TagPayload(tag.value);
      Ok((Put(tags, id, JObj(TagEntry(uid, payload, atts))), Some(id)))
  }

  /** `add_tag`, with `id` the uuid drawn for the new entry. */
  method AddTag(tags: Dict<Json>, uid: string, tag: Option<TagData>, atts: Dict<Json>, id: string)
    returns (r: Result<(Dict<Json>, Option<string>)>)
    ensures r == AddTagSpec(tags, uid, tag, atts, id)
  {
    if tag.None? || IsEmpty(tag.value) {
      return Ok((tags, None));
    }
    var entry := [("ontology_uid", JStr(uid))];
    var filled := FillTagData(tag.value, entry);
    if filled.Err? {
      return Err(filled.error);
    }
    entry := filled.value;
    assert entry == [("ontology_uid", JStr(uid)), ("tag_data", TagPayload(tag.value).value)];
    var e0 := entry;
    for i := 0 to |atts|
      invariant PutAll(e0, atts, 0) == PutAll(entry, atts, i)
    {
      entry := Put(entry, atts[i].0, atts[i].1);
    }
    return Ok((Put(tags, id, JObj(entry)), Some(id)));
  }

  /** Later writes of `PutAll` never move the keys already there. */
  lemma {:induction false} PutAllKeepsPrefix(d: Dict<Json>, atts: Dict<Json>, i: nat)
    requires i <= |atts|
    ensures |PutAll(d, atts, i)| >= |d| && Keys(PutAll(d, atts, i))[..|d|] == Keys(d)
    decreases |atts| - i
  {
    if i < |atts| {
      var d1 := Put(d, atts[i].0, atts[i].1);
      PutKeepsPrefix(d, atts[i].0, atts[i].1);
      PutAllKeepsPrefix(d1, atts, i + 1);
      assert Keys(PutAll(d, atts, i))[..|d|] == Keys(PutAll(d1, atts, i + 1))[..|d1|][..|d|];
    }
  }

  /** A key that `atts` does not mention keeps its value through `PutAll`. */
  lemma {:induction false} PutAllOther(d: Dict<Json>, atts: Dict<Json>, i: nat, k: string)
    requires i <= |atts| && k !in Keys(atts)
    ensures Get(PutAll(d, atts, i), k) == Get(d, k)
    decreases |atts| - i
  {
    if i < |atts| {
      assert atts[i].0 != k;
      PutAllOther(Put(d, atts[i].0, atts[i].1), atts, i + 1, k);
    }
  }

  /** Every attribute given ends up in the record with the last value given for it. */
  lemma {:induction false} PutAllSets(d: Dict<Json>, atts: Dict<Json>, i: nat, j: nat)
    requires i <= j < |atts|
    requires forall m :: j < m < |atts| ==> atts[m].0 != atts[j].0
    ensures Get(PutAll(d, atts, i), atts[j].0) == Some(atts[j].1)
    decreases |atts| - i
  {
    if i < j {
      PutAllSets(Put(d, atts[i].0, atts[i].1), atts, i + 1, j);
    } else {
      var d1 := Put(d, atts[j].0, atts[j].1);
      PutAllAfter(d1, atts, j + 1, atts[j].0);
    }
  }

  lemma {:induction false} PutAllAfter(d: Dict<Json>, atts: Dict<Json>, i: nat, k: string)
    requires i <= |atts|
    requires forall m :: i <= m < |atts| ==> atts[m].0 != k
    ensures Get(PutAll(d, atts, i), k) == Get(d, k)
    decreases |atts| - i
  {
    if i < |atts| {
      PutAllAfter(Put(d, atts[i].0, atts[i].1), atts, i + 1, k);
    }
  }

  /** The record starts with the ontology id and the payload and holds every
      extra attribute with the last value given for it. */
  lemma TagEntryShape(uid: string, payload: Json, atts: Dict<Json>)
    ensures var e := TagEntry(uid, payload, atts);
            |e| >= 2 && Keys(e)[..2] == ["ontology_uid", "tag_data"] &&
            forall j :: 0 <= j < |atts| && (forall m :: j < m < |atts| ==> atts[m].0 != atts[j].0) ==>
              Get(e, atts[j].0) == Some(atts[j].1)
  {
    var e0 := [("ontology_uid", JStr(uid)), ("tag_data", payload)];
    PutAllKeepsPrefix(e0, atts, 0);
    assert Keys(e0) == ["ontology_uid", "tag_data"];
    forall j | 0 <= j < |atts| && (forall m :: j < m < |atts| ==> atts[m].0 != atts[j].0)
      ensures Get(TagEntry(uid, payload, atts), atts[j].0) == Some(atts[j].1)
    {
      PutAllSets(e0, atts, 0, j);
    }
  }

  /** `add_tag` leaves the tags alone for a missing or empty payload; otherwise,
      with a fresh id, it appends exactly one record made by `TagEntry`. */
  lemma AddTagAddsOne(tags: Dict<Json>, uid: string, tag: Option<TagData>, atts: Dict<Json>, id: string)
    requires id !in Keys(tags)
    requires AddTagSpec(tags, uid, tag, atts, id).Ok?
    ensures tag.None? || IsEmpty(tag.value) ==> AddTagSpec(tags, uid, tag, atts, id).value == (tags, None)
    ensures tag.Some? && !IsEmpty(tag.value) ==>
              TagPayload(tag.value).Ok? &&
              AddTagSpec(tags, uid, tag, atts, id).value ==
                (tags + [(id, JObj(TagEntry(uid, TagPayload(tag.value).value, atts)))], Some(id))
  {
    if tag.Some? && !IsEmpty(tag.value) {
      var payload := TagPayload(tag.value).value;
      PutNewAppends(tags, id, JObj(TagEntry(uid, payload, atts)));
    }
  }

  /** A text tag whose values are all None (or hold None) adds nothing; one with a
      real value adds its record. */
  lemma TextTagEmptiness(tags: Dict<Json>, uid: string, vs: seq<Option<TagValue>>, atts: Dict<Json>, id: string)
    ensures (forall i :: 0 <= i < |vs| ==> vs[i].None? || vs[i].value.val == JNull) ==>
              AddTagSpec(tags, uid, Some(ListTag(KText, vs)), atts, id) == Ok((tags, None))
    ensures (forall i :: 0 <= i < |vs| ==> vs[i].Some?) && (exists i :: 0 <= i < |vs| && vs[i].value.val != JNull) ==>
              AddTagSpec(tags, uid, Some(ListTag(KText, vs)), atts, id).Ok? &&
              AddTagSpec(tags, uid, Some(ListTag(KText, vs)), atts, id).value.1 == Some(id)
  {
  }

  // ------------------------------------------------------------ add_list_tag

  /** The Python type of a JSON value, as `type(x)` distinguishes them. */
  datatype PyType = TNone | TBool | TInt | TFloat | TStr | TDate | TList | TDict

  function TypeOf(x: Json): PyType
  {
    match x
    case JNull => TNone
    case JBool(_) => TBool
    case JInt(_) => TInt
    case JNum(_) => TFloat
    case JStr(_) => TStr
    case JDate(_) => TDate
    case JArr(_) => TList
    case JObj(_) => TDict
  }

  /** `[x for x in data if x is not None]`. */
  function NonNull(data: seq<Json>): (r: seq<Json>)
    ensures |r| <= |data|
    ensures forall i :: 0 <= i < |r| ==> r[i] != JNull && r[i] in data
    ensures forall x :: x in data && x != JNull ==> x in r
  {
    if |data| == 0 then []
    else if data[0] == JNull then NonNull(data[1..])
    else [data[0]] + NonNull(data[1..])
  }

  /** All values have the Python type of the first. */
  predicate SameType(xs: seq<Json>)
  {
    |xs| > 0 && forall i :: 0 <= i < |xs| ==> TypeOf(xs[i]) == TypeOf(xs[0])
  }

  predicate Numeric(x: Json) { x.JInt? || x.JNum? }

  function NumVal(x: Json): real
    requires Numeric(x)
  {
    if x.JInt? then x.i as real else x.r
  }

  /** Python's `min` over numbers: the first smallest value. */
  function MinOf(xs: seq<Json>): (r: Json)
    requires |xs| > 0 && forall i :: 0 <= i < |xs| ==> Numeric(xs[i])
    ensures r in xs && Numeric(r)
    ensures forall i :: 0 <= i < |xs| ==> NumVal(r) <= NumVal(xs[i])
  {
    if |xs| == 1 then xs[0]
    else
      var m := MinOf(xs[1..]);
      if NumVal(m) < NumVal(xs[0]) then m else xs[0]
  }

  /** Python's `max` over numbers: the first largest value. */
  function MaxOf(xs: seq<Json>): (r: Json)
    requires |xs| > 0 && forall i :: 0 <= i < |xs| ==> Numeric(xs[i])
    ensures r in xs && Numeric(r)
    ensures forall i :: 0 <= i < |xs| ==> NumVal(xs[i]) <= NumVal(r)
  {
    if |xs| == 1 then xs[0]
    else
      var m := MaxOf(xs[1..]);
      if NumVal(m) > NumVal(xs[0]) then m else xs[0]
  }

  function NumValue(x: Json, t: string): TagValue
  {
    TagValue(x, None, None, Some(t))
  }

  /** The tag `add_list_tag` builds from the values left after dropping None. */
  function ListTagOf(xs: seq<Json>): TagData
  {
    if |xs| == 1 then ListTag(KNum, [Some(NumValue(xs[0], "value"))])
    else if |xs| > 1 then
      if SameType(xs) && Numeric(xs[0]) then
        var lo := MinOf(xs);
        var hi := MaxOf(xs);
        if lo == hi then ListTag(KNum, [Some(NumValue(hi, "value"))])
        else ListTag(KNum, [Some(NumValue(lo, "min")), Some(NumValue(hi, "max"))])
      else ListTag(KVec, [Some(NumValue(JArr(xs), "values"))])
    else ListTag(KNum, [])
  }

  /** The tag value `add_list_tag` computes, with its type-agreement loop. */
  method ListTagValue(xs: seq<Json>) returns (t: TagData)
    ensures t == ListTagOf(xs)
  {
    if |xs| == 1 {
      t := ListTag(KNum, [Some(NumValue(xs[0], "value"))]);
    } else if |xs| > 1 {
      var otype := Some(TypeOf(xs[0]));   // None plays Python's `object`
      for i := 0 to |xs|
        invariant otype.Some? <==> forall j :: 0 <= j < i ==> TypeOf(xs[j]) == TypeOf(xs[0])
        invariant otype.Some? ==> otype.value == TypeOf(xs[0])
      {
        if otype.Some? && TypeOf(xs[i]) != otype.value {
          otype := None;
        }
      }
      if otype == Some(TInt) || otype == Some(TFloat) {
        var lo := MinOf(xs);
        var hi := MaxOf(xs);
        if lo == hi {
          t := ListTag(KNum, [Some(NumValue(hi, "value"))]);
        } else {
          t := ListTag(KNum, [Some(NumValue(lo, "min")), Some(NumValue(hi, "max"))]);
        }
      } else {
        t := ListTag(KVec, [Some(NumValue(JArr(xs), "values"))]);
      }
    } else {
      t := ListTag(KNum, []);
    }
  }

  /** `add_list_tag`. */
  method AddListTag(data: seq<Json>, tags: Dict<Json>, uid: string, tagType: string, id: string)
    returns (r: Result<(Dict<Json>, Option<string>)>)
    ensures r == AddTagSpec(tags, uid, Some(ListTagOf(NonNull(data))), [("type", JStr(tagType))], id)
  {
    var t := ListTagValue(NonNull(data));
    r := AddTag(tags, uid, Some(t), [("type", JStr(tagType))], id);
  }

  /** Equal numbers of one type: the smallest and largest are the same value. */
  lemma {:induction false} MinMaxSame(xs: seq<Json>)
    requires SameType(xs) && Numeric(xs[0])
    ensures MinOf(xs) == MaxOf(xs) <==> forall i :: 0 <= i < |xs| ==> xs[i] == xs[0]
  {
    var lo := MinOf(xs);
    var hi := MaxOf(xs);
    if lo == hi {
      forall i | 0 <= i < |xs|
        ensures xs[i] == xs[0]
      {
        assert NumVal(xs[i]) == NumVal(xs[0]);
        assert TypeOf(xs[i]) == TypeOf(xs[0]);
      }
    }
  }

  /** `add_list_tag` with no values (after dropping None) adds nothing, and with
      one value adds a single `value` number. */
  lemma ListTagFewValues(xs: seq<Json>)
    ensures |xs| == 0 ==> IsEmpty(ListTagOf(xs))
    ensures |xs| == 1 ==> ListTagOf(xs) == ListTag(KNum, [Some(NumValue(xs[0], "value"))])
  {
  }

  /** Several numbers of one type: one `value` when all are equal, else the
      smallest as `min` and the largest as `max`. */
  lemma ListTagNumbers(xs: seq<Json>)
    requires |xs| > 1 && SameType(xs) && Numeric(xs[0])
    ensures (forall i :: 0 <= i < |xs| ==> xs[i] == xs[0]) ==>
              ListTagOf(xs) == ListTag(KNum, [Some(NumValue(xs[0], "value"))])
    ensures !(forall i :: 0 <= i < |xs| ==> xs[i] == xs[0]) ==>
              NumVal(MinOf(xs)) < NumVal(MaxOf(xs)) &&
              ListTagOf(xs) == ListTag(KNum, [Some(NumValue(MinOf(xs), "min")), Some(NumValue(MaxOf(xs), "max"))])
  {
    AllNumeric(xs);
    MinMaxSame(xs);
    if MinOf(xs) != MaxOf(xs) {
      ListTagSpread(xs);
    } else {
      ListTagEqual(xs);
    }
  }

  lemma ListTagEqual(xs: seq<Json>)
    requires |xs| > 1 && SameType(xs) && Numeric(xs[0]) && MinOf(xs) == MaxOf(xs)
    ensures ListTagOf(xs) == ListTag(KNum, [Some(NumValue(MaxOf(xs), "value"))])
  {
  }

  lemma ListTagSpread(xs: seq<Json>)
    requires |xs| > 1 && SameType(xs) && Numeric(xs[0]) && MinOf(xs) != MaxOf(xs)
    ensures NumVal(MinOf(xs)) < NumVal(MaxOf(xs))
    ensures ListTagOf(xs) == ListTag(KNum, [Some(NumValue(MinOf(xs), "min")), Some(NumValue(MaxOf(xs), "max"))])
  {
    AllNumeric(xs);
    var lo, hi := MinOf(xs), MaxOf(xs);
    assert TypeOf(lo) == TypeOf(hi) by {
      var a :| 0 <= a < |xs| && xs[a] == lo;
      var b :| 0 <= b < |xs| && xs[b] == hi;
      assert TypeOf(xs[a]) == TypeOf(xs[0]) == TypeOf(xs[b]);
    }
    SameNumber(lo, hi);
  }

  /** Values of the type of a first number are all numbers. */
  lemma AllNumeric(xs: seq<Json>)
    requires SameType(xs) && Numeric(xs[0])
    ensures forall i :: 0 <= i < |xs| ==> Numeric(xs[i])
  {
    forall i | 0 <= i < |xs|
      ensures Numeric(xs[i])
    {
      assert TypeOf(xs[i]) == TypeOf(xs[0]);
    }
  }

  /** Two numbers of one Python type with the same value are the same number. */
  lemma SameNumber(a: Json, b: Json)
    requires Numeric(a) && Numeric(b) && TypeOf(a) == TypeOf(b)
    ensures NumVal(a) == NumVal(b) ==> a == b
  {
  }

  /** Several values that are not numbers of one type give one `values` vector. */
  lemma ListTagMixed(xs: seq<Json>)
    requires |xs| > 1 && !(SameType(xs) && Numeric(xs[0]))
    ensures ListTagOf(xs) == ListTag(KVec, [Some(NumValue(JArr(xs), "values"))])
  {
  }

  // ----------------------------------------------------------- road users

  /** An XML element as the extractor reads it: its tag and attributes. */
  datatype Elem = Elem(tag: string, attrib: Dict<string>)

  /** `el.attrib[key]`: KeyError when missing. */
  function Attr(e: Elem, key: string): (r: Result<string>)
    ensures r.Ok? <==> key in Keys(e.attrib)
  {
    match Get(e.attrib, key)
    case Some(v) => Ok(v)
    case None => Err(KeyError(key))
  }

  /** The taxonomy classes of a vehicle category (none for an unknown one). */
  function VehicleClasses(cat: string): set<string>
  {
    if cat == "bicycle" then {"RoadUserVehicle", "VehicleCycle", "RoadUserHuman", "HumanCyclist"}
    else if cat == "bus" then {"RoadUserVehicle", "VehicleBus"}
    else if cat == "car" then {"RoadUserVehicle", "VehicleCar"}
    else if cat == "motorbike" then {"RoadUserVehicle", "VehicleMotorcycle"}
    else if cat == "semitrailer" || cat == "trailer" then {"RoadUserVehicle", "VehicleTailer"}
    else if cat == "train" || cat == "tram" then {"RoadUserVehicle"}
    else if cat == "truck" then {"RoadUserVehicle", "VehicleTruck"}
    else if cat == "van" then {"RoadUserVehicle", "VehicleVan"}
    else {}
  }

  /** The classes a vehicle role adds. */
  function RoleClasses(role: Option<string>): set<string>
  {
    if role == Some("ambulance") || role == Some("police") || role == Some("fire") then {"VehicleEmergency"}
    else if role == Some("roadAssistance") then {"VehicleConstruction"}
    else {}
  }

  /** The taxonomy classes of a pedestrian category. */
  function PedestrianClasses(cat: string): set<string>
  {
    if cat == "animal" then {"RoadUserAnimal"}
    else if cat == "pedestrian" then {"RoadUserHuman", "HumanPedestrian"}
    else if cat == "wheelchair" then {"RoadUserHuman", "HumanWheelchairUser", "RoadUserVehicle", "VehicleWheelchair"}
    else {}
  }

  /** The classes a scenario object contributes; a vehicle or pedestrian without
      its category attribute raises KeyError. */
  function RoadUserClasses(child: Elem): Result<set<string>>
  {
    if child.tag == "Vehicle" then
      var cat :- Attr(child, "vehicleCategory");
      Ok(VehicleClasses(cat) + RoleClasses(Get(child.attrib, "role")))
    else if child.tag == "Pedestrian" then
      var cat :- Attr(child, "pedestrianCategory");
      Ok(PedestrianClasses(cat))
    else Ok({"RoadUser"})
  }

  /** `analyze_road_user`: adds the object's classes to the set. */
  method AnalyzeRoadUser(child: Elem, users: set<string>) returns (r: Result<set<string>>)
    ensures RoadUserClasses(child).Err? ==> r == Err(RoadUserClasses(child).error)
    ensures RoadUserClasses(child).Ok? ==> r == Ok(users + RoadUserClasses(child).value)
  {
    var u := users;
    if child.tag == "Vehicle" {
      var cat :- Attr(child, "vehicleCategory");
      u := AddVehicleClasses(cat, u);
      var role := Get(child.attrib, "role");
      u := AddRoleClasses(role, u);
      UnionRegroup(users, VehicleClasses(cat), RoleClasses(role));
      assert RoadUserClasses(child) == Ok(VehicleClasses(cat) + RoleClasses(role));
    } else if child.tag == "Pedestrian" {
      var cat :- Attr(child, "pedestrianCategory");
      u := AddPedestrianClasses(cat, u);
      assert RoadUserClasses(child) == Ok(PedestrianClasses(cat));
    } else {
      u := u + {"RoadUser"};
    }
    return Ok(u);
  }

  lemma UnionRegroup<T>(a: set<T>, b: set<T>, c: set<T>)
    ensures a + b + c == a + (b + c)
  {
  }

  /** The vehicle-category branch of `analyze_road_user`. */
  method AddVehicleClasses(cat: string, users: set<string>) returns (u: set<string>)
    ensures u == users + VehicleClasses(cat)
  {
    u := users;
    if cat == "bicycle" {
      u := u + {"RoadUserVehicle"};
      u := u + {"VehicleCycle"};
      u := u + {"RoadUserHuman"};
      u := u + {"HumanCyclist"};
    } else if cat == "bus" {
      u := u + {"RoadUserVehicle"} + {"VehicleBus"};
    } else if cat == "car" {
      u := u + {"RoadUserVehicle"} + {"VehicleCar"};
    } else if cat == "motorbike" {
      u := u + {"RoadUserVehicle"} + {"VehicleMotorcycle"};
    } else if cat == "semitrailer" || cat == "trailer" {
      u := u + {"RoadUserVehicle"} + {"VehicleTailer"};
    } else if cat == "train" || cat == "tram" {
      u := u + {"RoadUserVehicle"};
    } else if cat == "truck" {
      u := u + {"RoadUserVehicle"} + {"VehicleTruck"};
    } else if cat == "van" {
      u := u + {"RoadUserVehicle"} + {"VehicleVan"};
    }
  }

  /** The vehicle-role branch of `analyze_road_user`. */
  method AddRoleClasses(role: Option<string>, users: set<string>) returns (u: set<string>)
    ensures u == users + RoleClasses(role)
  {
    u := users;
    if role.Some? {
      if role.value == "ambulance" || role.value == "police" || role.value == "fire" {
        u := u + {"VehicleEmergency"};
      }
      if role.value == "roadAssistance" {
        u := u + {"VehicleConstruction"};
      }
    }
  }

  /** The pedestrian-category branch of `analyze_road_user`. */
  method AddPedestrianClasses(cat: string, users: set<string>) returns (u: set<string>)
    ensures u == users + PedestrianClasses(cat)
  {
    u := users;
    if cat == "animal" {
      u := u + {"RoadUserAnimal"};
    } else if cat == "pedestrian" {
      u := u + {"RoadUserHuman"} + {"HumanPedestrian"};
    } else if cat == "wheelchair" {
      u := u + {"RoadUserHuman"} + {"HumanWheelchairUser"} + {"RoadUserVehicle"} + {"VehicleWheelchair"};
    }
  }

  /** A bicycle without a role adds exactly the cyclist classes; an emergency role
      always adds VehicleEmergency; any tag other than Vehicle or Pedestrian adds
      exactly RoadUser. */
  lemma RoadUserFacts(child: Elem)
    ensures child.tag == "Vehicle" && Get(child.attrib, "vehicleCategory") == Some("bicycle") && Get(child.attrib, "role").None? ==>
              RoadUserClasses(child) == Ok({"RoadUserVehicle", "VehicleCycle", "RoadUserHuman", "HumanCyclist"})
    ensures child.tag == "Vehicle" && RoadUserClasses(child).Ok? &&
            Get(child.attrib, "role") in {Some("ambulance"), Some("police"), Some("fire")} ==>
              "VehicleEmergency" in RoadUserClasses(child).value
    ensures child.tag != "Vehicle" && child.tag != "Pedestrian" ==> RoadUserClasses(child) == Ok({"RoadUser"})
    ensures child.tag == "Vehicle" ==> (RoadUserClasses(child).Err? <==> "vehicleCategory" !in Keys(child.attrib))
  {
    if child.tag == "Vehicle" && Get(child.attrib, "vehicleCategory") == Some("bicycle") && Get(child.attrib, "role").None? {
      assert Attr(child, "vehicleCategory") == Ok("bicycle");
      assert RoleClasses(None) == {};
      assert VehicleClasses("bicycle") == {"RoadUserVehicle", "VehicleCycle", "RoadUserHuman", "HumanCyclist"};
      assert RoadUserClasses(child) == Ok(VehicleClasses("bicycle") + RoleClasses(None));
      assert VehicleClasses("bicycle") + RoleClasses(None) == {"RoadUserVehicle", "VehicleCycle", "RoadUserHuman", "HumanCyclist"};
    }
  }

  // ------------------------------------------------------------ time of day

  /** The illumination classes one hour of the day contributes. */
  function HourClasses(h: int): set<string>
  {
    (if 8 <= h <= 18 then {"EnvironmentIllumination", "IlluminationDay"} else {})
    + (if (6 <= h < 8) || (18 < h <= 20) then {"EnvironmentIllumination", "IlluminationLowLight", "LowLightAmbient"} else {})
    + (if h < 6 || h > 20 then {"EnvironmentIllumination", "IlluminationLowLight", "LowLightNight"} else {})
  }

  /** The classes of a list of hours. */
  function HoursClasses(hours: seq<int>): set<string>
  {
    if |hours| == 0 then {} else HoursClasses(hours[..|hours| - 1]) + HourClasses(hours[|hours| - 1])
  }

  /** The time-tag loop of `add_environment_tags`. */
  method TimeTags(hours: seq<int>) returns (r: set<string>)
    ensures r == HoursClasses(hours)
  {
    r := {};
    for i := 0 to |hours|
      invariant r == HoursClasses(hours[..i])
    {
      assert hours[..i + 1][..i] == hours[..i];
      var h := hours[i];
      if h >= 8 && h <= 18 {
        r := r + {"EnvironmentIllumination", "IlluminationDay"};
      }
      if (h >= 6 && h < 8) || (h > 18 && h <= 20) {
        r := r + {"EnvironmentIllumination", "IlluminationLowLight", "LowLightAmbient"};
      }
      if h < 6 || h > 20 {
        r := r + {"EnvironmentIllumination", "IlluminationLowLight", "LowLightNight"};
      }
    }
    assert hours[..|hours|] == hours;
  }

  /** Every hour gets EnvironmentIllumination and exactly one of the three buckets:
      day for 8 to 18, ambient low light for 6-7 and 19-20, night otherwise. */
  lemma HourBuckets(h: int)
    requires 0 <= h <= 23
    ensures "EnvironmentIllumination" in HourClasses(h)
    ensures ("IlluminationDay" in HourClasses(h)) <==> 8 <= h <= 18
    ensures ("LowLightAmbient" in HourClasses(h)) <==> (6 <= h <= 7 || 19 <= h <= 20)
    ensures ("LowLightNight" in HourClasses(h)) <==> (0 <= h <= 5 || 21 <= h <= 23)
    ensures ("IlluminationLowLight" in HourClasses(h)) <==> !(8 <= h <= 18)
  {
  }

  /** A class is in the result exactly when some hour contributes it. */
  lemma {:induction false} HoursClassesIff(hours: seq<int>, c: string)
    ensures c in HoursClasses(hours) <==> exists i :: 0 <= i < |hours| && c in HourClasses(hours[i])
  {
    if |hours| > 0 {
      var init := hours[..|hours| - 1];
      HoursClassesIff(init, c);
      if c in HoursClasses(init) {
        var i :| 0 <= i < |init| && c in HourClasses(init[i]);
        assert hours[i] == init[i];
      }
      if exists i :: 0 <= i < |hours| && c in HourClasses(hours[i]) {
        var i :| 0 <= i < |hours| && c in HourClasses(hours[i]);
        if i < |hours| - 1 {
          assert init[i] == hours[i];
        }
      }
    }
  }

  // -------------------------------------------------------- find_tag / get_tag

  /** A JSON tree as a Python dict tree: unique keys, none empty or containing `/`. */
  predicate TagTree(j: Json)
    decreases j
  {
    j.JObj? ==> UniqueKeys(j.fields) &&
                forall i :: 0 <= i < |j.fields| ==> j.fields[i].0 != "" && '/' !in j.fields[i].0 && TagTree(j.fields[i].1)
  }

  /** `path/k`, or `k` at the top. */
  function SubPath(path: string, k: string): string
  {
    if path == "" then k else path + "/" + k
  }

  /** `find_tag`: the `/`-path of the first dict (depth first, in key order) that
      has `type` equal to `name`. */
  function FindTag(name: string, d: Json, path: string): Option<string>
    decreases d, 1
  {
    if d.JObj? then FindIn(name, d, 0, path) else None
  }

  function FindIn(name: string, d: Json, i: nat, path: string): Option<string>
    requires d.JObj? && i <= |d.fields|
    decreases d, 0, |d.fields| - i
  {
    if i == |d.fields| then None
    else
      var k := d.fields[i].0;
      var v := d.fields[i].1;
      if k == "type" && v == JStr(name) then Some(path)
      else if v.JObj? then
        assert d.fields[i] in d.fields;
        match FindTag(name, v, SubPath(path, k))
        case Some(id) => Some(id)
        case None => FindIn(name, d, i + 1, path)
      else FindIn(name, d, i + 1, path)
  }

  /** The value reached by indexing with `parts` from index `i` on. */
  function GetPath(d: Json, parts: seq<string>, i: nat): Result<Json>
    requires i <= |parts|
    decreases |parts| - i
  {
    if i == |parts| then Ok(d)
    else
      var next :- Index(d, parts[i]);
      GetPath(next, parts, i + 1)
  }

  /** `get_tag`. */
  method GetTag(path: string, d: Json) returns (r: Result<Json>)
    ensures r == GetPath(d, Split(path, "/"), 0)
  {
    var parts := Split(path, "/");
    var c := d;
    var i := 0;
    while i < |parts|
      invariant i <= |parts|
      invariant GetPath(d, parts, 0) == GetPath(c, parts, i)
    {
      c :- Index(c, parts[i]);
      i := i + 1;
    }
    return Ok(c);
  }

  lemma {:induction false} GetPathAppend(d: Json, parts: seq<string>, k: string)
    requires GetPath(d, parts, 0).Ok?
    ensures GetPath(d, parts + [k], 0) == Index(GetPath(d, parts, 0).value, k)
  {
    GetPathAppendFrom(d, parts, k, 0);
  }

  lemma {:induction false} GetPathAppendFrom(d: Json, parts: seq<string>, k: string, i: nat)
    requires i <= |parts| && GetPath(d, parts, i).Ok?
    ensures GetPath(d, parts + [k], i) == Index(GetPath(d, parts, i).value, k)
    decreases |parts| - i
  {
    if i < |parts| {
      assert (parts + [k])[i] == parts[i];
      GetPathAppendFrom(Index(d, parts[i]).value, parts, k, i + 1);
    } else {
      assert (parts + [k])[i] == k;
    }
  }

  /** What `find_tag` finds below `d`, reached from `root` by `path`, `get_tag`
      reaches from `root`: a dict whose `type` is the name sought. */
  lemma {:induction false} FindTagReachesFrom(name: string, root: Json, d: Json, path: string)
    requires TagTree(d) && FindTag(name, d, path).Some? && FindTag(name, d, path).value != ""
    requires path == "" ==> root == d
    requires path != "" ==> GetPath(root, Split(path, "/"), 0) == Ok(d)
    ensures var q := FindTag(name, d, path).value;
            exists t :: GetPath(root, Split(q, "/"), 0) == Ok(t) && t.JObj? && ("type", JStr(name)) in t.fields
    decreases d, 1
  {
    FindInReaches(name, root, d, 0, path);
  }

  lemma {:induction false} FindInReaches(name: string, root: Json, d: Json, i: nat, path: string)
    requires d.JObj? && i <= |d.fields| && TagTree(d)
    requires FindIn(name, d, i, path).Some? && FindIn(name, d, i, path).value != ""
    requires path == "" ==> root == d
    requires path != "" ==> GetPath(root, Split(path, "/"), 0) == Ok(d)
    ensures var q := FindIn(name, d, i, path).value;
            exists t :: GetPath(root, Split(q, "/"), 0) == Ok(t) && t.JObj? && ("type", JStr(name)) in t.fields
    decreases d, 0, |d.fields| - i
  {
    var k := d.fields[i].0;
    var v := d.fields[i].1;
    if k == "type" && v == JStr(name) {
      assert d.fields[i] in d.fields;
    } else if v.JObj? && FindTag(name, v, SubPath(path, k)).Some? {
      assert d.fields[i] in d.fields;
      UniqueGet(d.fields, i);
      assert Index(d, k) == Ok(v);
      if path == "" {
        SplitNoSep(k, '/');
        assert Split(k, "/") == [k];
        assert GetPath(root, [k], 0) == GetPath(v, [k], 1);
      } else {
        assert path + "/" + k == path + ['/'] + k;
        SplitAppend(path, '/', k);
        GetPathAppend(root, Split(path, "/"), k);
      }
      FindTagReachesFrom(name, root, v, SubPath(path, k));
    } else {
      FindInReaches(name, root, d, i + 1, path);
    }
  }

  /** `get_tag(find_tag(name, d, ''), d)` reaches a dict whose `type` is `name`
      whenever the path found is not empty. */
  lemma FindThenGet(name: string, d: Json)
    requires TagTree(d) && FindTag(name, d, "").Some? && FindTag(name, d, "").value != ""
    ensures exists t :: GetPath(d, Split(FindTag(name, d, "").value, "/"), 0) == Ok(t) && t.JObj? && ("type", JStr(name)) in t.fields
  {
    FindTagReachesFrom(name, d, d, "");
  }

  // ------------------------------------------------------------ header fields

  /** The filler's loop from index `i` on, `acc` holding the text so far: each
      attribute value followed by `sep`. */
  function ConcatFrom(h: Dict<string>, names: seq<string>, sep: string, i: nat, acc: string): Result<string>
    requires i <= |names|
    decreases |names| - i
  {
    if i == |names| then Ok(acc)
    else
      var v :- Attr(Elem("", h), names[i]);
      ConcatFrom(h, names, sep, i + 1, acc + v + sep)
  }

  /** Python's `value[:-len(sep)]` (empty when `sep` is empty). */
  function DropSuffix(value: string, sep: string): string
    requires |sep| <= |value|
  {
    if |sep| == 0 then "" else value[..|value| - |sep|]
  }

  /** `default_one_filler`: one attribute's value, or the values joined by `sep`. */
  function OneFillerSpec(h: Dict<string>, names: seq<string>, sep: string): Result<string>
  {
    if |names| == 1 then Attr(Elem("", h), names[0])
    else
      var value :- ConcatFrom(h, names, sep, 0, "");
      Ok(if EndsWith(value, sep) then DropSuffix(value, sep) else value)
  }

  method DefaultOneFiller(h: Dict<string>, names: seq<string>, sep: string) returns (r: Result<string>)
    ensures r == OneFillerSpec(h, names, sep)
  {
    if |names| == 1 {
      return Attr(Elem("", h), names[0]);
    }
    var value := "";
    var i := 0;
    while i < |names|
      invariant i <= |names|
      invariant ConcatFrom(h, names, sep, 0, "") == ConcatFrom(h, names, sep, i, value)
    {
      var v := Attr(Elem("", h), names[i]);
      if v.Err? {
        return Err(v.error);
      }
      value := value + v.value + sep;
      i := i + 1;
    }
    if EndsWith(value, sep) {
      value := DropSuffix(value, sep);
    }
    return Ok(value);
  }

  /** One step of `sep.join` over a suffix. */
  lemma JoinFrom(sep: string, vs: seq<string>, i: nat)
    requires i + 1 < |vs|
    ensures Join(sep, vs[i..]) == vs[i] + sep + Join(sep, vs[i + 1..])
  {
    assert vs[i..][1..] == vs[i + 1..];
  }

  lemma ConcatRegroup<T>(acc: seq<T>, v: seq<T>, sep: seq<T>, rest: seq<T>)
    ensures acc + v + sep + rest + sep == acc + (v + sep + rest) + sep
  {
  }

  lemma {:induction false} ConcatIsJoin(h: Dict<string>, names: seq<string>, sep: string, i: nat, acc: string, vs: seq<string>)
    requires i < |names| && |vs| == |names|
    requires forall j :: 0 <= j < |names| ==> Get(h, names[j]) == Some(vs[j])
    ensures ConcatFrom(h, names, sep, i, acc) == Ok(acc + Join(sep, vs[i..]) + sep)
    decreases |names| - i
  {
    var v := vs[i];
    assert Attr(Elem("", h), names[i]) == Ok(v);
    var acc' := acc + v + sep;
    assert ConcatFrom(h, names, sep, i, acc) == ConcatFrom(h, names, sep, i + 1, acc');
    if i + 1 < |names| {
      ConcatIsJoin(h, names, sep, i + 1, acc', vs);
      JoinFrom(sep, vs, i);
      ConcatRegroup(acc, v, sep, Join(sep, vs[i + 1..]));
    } else {
      assert vs[i..] == [v];
    }
  }

  /** With every attribute present, the filler gives the values joined by the
      separator (for a non-empty separator). */
  lemma OneFillerJoins(h: Dict<string>, names: seq<string>, sep: string, vs: seq<string>)
    requires |names| >= 1 && |sep| > 0 && |vs| == |names|
    requires forall j :: 0 <= j < |names| ==> Get(h, names[j]) == Some(vs[j])
    ensures OneFillerSpec(h, names, sep) == Ok(Join(sep, vs))
  {
    if |names| > 1 {
      ConcatIsJoin(h, names, sep, 0, "", vs);
      var j := Join(sep, vs);
      assert vs[0..] == vs;
      var value := ConcatFrom(h, names, sep, 0, "").value;
      assert value == j + sep;
      assert value[|value| - |sep|..] == sep;
      assert EndsWith(value, sep);
      assert DropSuffix(value, sep) == j;
    } else {
      assert Attr(Elem("", h), names[0]) == Ok(vs[0]);
    }
  }

  predicate AllPresent(h: Dict<string>, names: seq<string>)
  {
    forall i :: 0 <= i < |names| ==> names[i] in Keys(h)
  }

  /** `fill_from_header_value`: the filled value when the header has every
      attribute, the default otherwise. */
  method FillFromHeaderValue(meta: Dict<Json>, keyword: string, header: Option<Dict<string>>, names: seq<string>,
                             default: string, fill: (Dict<string>, seq<string>) -> Result<string>)
    returns (r: Result<Dict<Json>>)
    ensures header.None? || !AllPresent(header.value, names) ==> r == Ok(Put(meta, keyword, JStr(default)))
    ensures header.Some? && AllPresent(header.value, names) && fill(header.value, names).Ok? ==>
              r == Ok(Put(meta, keyword, JStr(fill(header.value, names).value)))
    ensures header.Some? && AllPresent(header.value, names) && fill(header.value, names).Err? ==>
              r == Err(fill(header.value, names).error)
  {
    if header.None? {
      return Ok(Put(meta, keyword, JStr(default)));
    }
    var present := true;
    var i := 0;
    while i < |names|
      invariant i <= |names|
      invariant present <==> forall j :: 0 <= j < i ==> names[j] in Keys(header.value)
      invariant !present ==> !AllPresent(header.value, names)
    {
      if names[i] !in Keys(header.value) {
        present := false;
        break;
      }
      i := i + 1;
    }
    if present {
      var v := fill(header.value, names);
      if v.Err? {
        return Err(v.error);
      }
      return Ok(Put(meta, keyword, JStr(v.value)));
    }
    return Ok(Put(meta, keyword, JStr(default)));
  }

  // ------------------------------------------------------------ register_links

  /** `os.path.basename`: the text after the last `/`. */
  function Basename(p: string): (r: string)
    ensures '/' !in r && EndsWith(p, r)
  {
    match LastIndexOfChar(p, '/')
    case None => p
    case Some(i) => p[i + 1..]
  }

  /** The manifest record of one linked file; `size` is the file size where the
      file exists. */
  function LinkRecord(link: string, size: Option<int>): Json
  {
    var meta := [("manifest:uri", JStr(link)), ("manifest:filename", JStr(Basename(link)))]
                + (if size.Some? then [("manifest:fileSize", JInt(size.value))] else []);
    JObj([("manifest:accessRole", JStr("owner")), ("manifest:type", JStr("assetData")), ("manifest:fileMetaData", JObj(meta))])
  }

  /** `register_links`: one record per link, in order, under `name`; nothing for
      no links. */
  method RegisterLinks(links: Dict<Json>, name: string, paths: seq<string>, size: string -> Option<int>) returns (r: Dict<Json>)
    ensures |paths| == 0 ==> r == links
    ensures |paths| > 0 ==>
              (exists recs :: r == Put(links, name, JArr(recs)) && |recs| == |paths| &&
                 forall i :: 0 <= i < |paths| ==> recs[i] == LinkRecord(paths[i], size(paths[i])))
  {
    if |paths| == 0 {
      return links;
    }
    var recs: seq<Json> := [];
    for i := 0 to |paths|
      invariant |recs| == i
      invariant forall j :: 0 <= j < i ==> recs[j] == LinkRecord(paths[j], size(paths[j]))
    {
      recs := recs + [LinkRecord(paths[i], size(paths[i]))];
    }
    return Put(links, name, JArr(recs));
  }
}

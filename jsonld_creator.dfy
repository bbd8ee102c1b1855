/**
 * The claim composer of the JSON-LD creator (jsonLD_creator/main.py).
 *
 * It walks the SHACL shapes of an ontology together with the metadata
 * extracted from an asset and builds the JSON-LD claim: a header, one group
 * per node shape found in the metadata, and one typed value per literal
 * property. The pure classifiers are functions; the walk itself, which the
 * source writes as loops that fill dicts and lists, is a family of methods,
 * each proved equal to a specification function on values. Lemmas about
 * those functions state what the composer promises.
 */
module JsonLdCreator {
  import opened Wrappers
  import opened ODict
  import opened PyStr
  import opened JsonValue
  import opened Vocab
  import opened PyPath

  const MinCountKey: string := SH + "minCount"
  const MaxCountKey: string := SH + "maxCount"

  /** One property shape: predicate IRI -> object text, in graph order. */
  type PropMap = Dict<string>

  /** Shape IRI -> its property shapes, in graph order. */
  type ShapeTable = Dict<seq<PropMap>>

  /** A loaded ontology: its prefix table (prefix -> namespace IRI) and its shapes. */
  datatype ShaclGraph = ShaclGraph(prefixes: Dict<string>, shapes: ShapeTable)

  /** Ontology prefix -> loaded ontology. */
  type Shacls = map<string, ShaclGraph>

  // ------------------------------------------------------------- data types

  datatype ValueKind = KStr | KBool | KDateTime | KInt | KFloat

  /** An entry of the datatype table: the Python type it maps to and its default text. */
  datatype TypeEntry = TypeEntry(kind: ValueKind, defaultText: string)

  /** The datatype table, keyed by the compacted XSD datatype. */
  function DataTypeEntry(dt: string): Option<TypeEntry>
  {
    if dt == "xsd:string" || dt == "xsd:anyURI" then Some(TypeEntry(KStr, ""))
    else if dt == "xsd:boolean" then Some(TypeEntry(KBool, "false"))
    else if dt == "xsd:datetime.datetime" || dt == "xsd:dateTime" then Some(TypeEntry(KDateTime, "01-01-2000"))
    else if dt == "xsd:integer" || dt == "xsd:int" || dt == "xsd:unsignedInt" then Some(TypeEntry(KInt, "0"))
    else if dt == "xsd:float" then Some(TypeEntry(KFloat, "0.0"))
    else None
  }

  /** Converts `value` to the Python type `dt` maps to; None (JNull) when the
      datatype is unknown, unsupported (boolean) or the text does not convert. */
  function CheckValueType(value: string, dt: string): (r: Json)
    ensures DataTypeEntry(dt).None? ==> r == JNull
    ensures r.JStr? ==> r.s == value && DataTypeEntry(dt).value.kind == KStr
    ensures r.JInt? ==> ParseInt(value) == Some(r.i)
    ensures r.JNum? ==> ParseReal(value) == Some(r.r)
  {
    match DataTypeEntry(dt)
    case None => JNull
    case Some(e) =>
      match e.kind
      case KStr => JStr(value)
      case KInt => (match ParseInt(value) case Some(n) => JInt(n) case None => JNull)
      case KFloat => (match ParseReal(value) case Some(x) => JNum(x) case None => JNull)
      case KDateTime => JDate(value)
      case KBool => JNull
  }

  /** The value a required-but-missing property receives, per kind. */
  function ZeroOf(k: ValueKind): Json
  {
    match k
    case KStr => JStr("")
    case KBool => JNull
    case KDateTime => JDate("01-01-2000")
    case KInt => JInt(0)
    case KFloat => JNum(0.0)
  }

  /** Every default of the table converts to the zero of its kind; booleans to None. */
  lemma DefaultIsZero(dt: string)
    requires DataTypeEntry(dt).Some?
    ensures CheckValueType(DataTypeEntry(dt).value.defaultText, dt) == ZeroOf(DataTypeEntry(dt).value.kind)
  {
    ZeroTexts();
    var e := DataTypeEntry(dt).value;
    match e.kind
    case KInt => assert e.defaultText == "0";
    case KFloat => assert e.defaultText == "0.0";
    case _ =>
  }

  /** The default texts of the numeric kinds parse to zero. */
  lemma ZeroTexts()
    ensures ParseInt("0") == Some(0) && ParseReal("0.0") == Some(0.0)
  {
    assert DigitsValue("0") == 0;
    assert IndexOf("0.0", ".") == Some(1) by {
      assert "0.0"[..1] == "0" && !StartsWith("0.0", ".");
      assert "0.0"[1..] == ".0";
      assert StartsWith(".0", ".");
      assert IndexOf(".0", ".") == Some(0);
    }
    assert "0.0"[..1] == "0" && "0.0"[2..] == "0";
  }

  /** Integer-typed text written by `str(n)` converts back to `n`. */
  lemma IntegerValueRoundTrip(n: int, dt: string)
    requires dt in {"xsd:integer", "xsd:int", "xsd:unsignedInt"}
    ensures CheckValueType(IntToStr(n), dt) == JInt(n)
  {
    IntRoundTrip(n);
  }

  // ------------------------------------------------------------ classifiers

  /** `is_required_property`: minCount present and at least one. */
  function IsRequired(p: PropMap): (r: Result<bool>)
    ensures Get(p, MinCountKey).None? ==> r == Ok(false)
    ensures r.Err? <==> Get(p, MinCountKey).Some? && ParseInt(Get(p, MinCountKey).value).None?
  {
    match Get(p, MinCountKey)
    case None => Ok(false)
    case Some(t) =>
      (match ParseInt(t)
       case None => Err(ValueError("invalid literal for int(): " + t))
       case Some(n) => Ok(n >= 1))
  }

  /** `is_list_property`: a property is a list unless maxCount is present and at most one. */
  function IsList(p: PropMap): (r: Result<bool>)
    ensures Get(p, MaxCountKey).None? ==> r == Ok(true)
    ensures r.Err? <==> Get(p, MaxCountKey).Some? && ParseInt(Get(p, MaxCountKey).value).None?
  {
    match Get(p, MaxCountKey)
    case None => Ok(true)
    case Some(t) =>
      (match ParseInt(t)
       case None => Err(ValueError("invalid literal for int(): " + t))
       case Some(n) => Ok(!(n <= 1)))
  }

  /** For counts written as integers: required iff minCount >= 1, list iff maxCount > 1. */
  lemma CountsClassify(p: PropMap, minC: int, maxC: int)
    ensures Get(p, MinCountKey) == Some(IntToStr(minC)) ==> IsRequired(p) == Ok(minC >= 1)
    ensures Get(p, MaxCountKey) == Some(IntToStr(maxC)) ==> IsList(p) == Ok(maxC > 1)
  {
    IntRoundTrip(minC);
    IntRoundTrip(maxC);
  }

  /** `replace_namespace`: the first prefix (in table order) whose namespace occurs in
      `s` replaces every occurrence of that namespace by `prefix:`. */
  function ReplaceNamespace(s: string, prefixes: Dict<string>): (r: string)
  {
    if |prefixes| == 0 then s
    else if Contains(s, prefixes[0].1) then Replace(s, prefixes[0].1, prefixes[0].0 + ":")
    else ReplaceNamespace(s, prefixes[1..])
  }

  /** A string holding none of the namespaces is returned unchanged. */
  lemma {:induction false} ReplaceNamespaceNone(s: string, prefixes: Dict<string>)
    requires forall i :: 0 <= i < |prefixes| ==> !Contains(s, prefixes[i].1)
    ensures ReplaceNamespace(s, prefixes) == s
  {
    if |prefixes| > 0 {
      ReplaceNamespaceNone(s, prefixes[1..]);
    }
  }

  /** A full IRI `ns + local` is compacted by the first entry whose namespace
      occurs in it: the leading namespace becomes `prefix:`, and so does every
      further occurrence of it in `local`. */
  lemma {:induction false} ReplaceNamespaceCompacts(prefixes: Dict<string>, i: nat, local: string)
    requires i < |prefixes| && |prefixes[i].1| > 0
    requires forall j :: 0 <= j < i ==> !Contains(prefixes[i].1 + local, prefixes[j].1)
    ensures ReplaceNamespace(prefixes[i].1 + local, prefixes)
            == prefixes[i].0 + ":" + Replace(local, prefixes[i].1, prefixes[i].0 + ":")
  {
    var ns := prefixes[i].1;
    if i == 0 {
      assert OccursAt(ns + local, ns, 0) by { assert (ns + local)[0..|ns|] == ns; }
      ContainsAt(ns + local, ns, 0);
      ReplaceLeading(ns, local, prefixes[0].0 + ":");
    } else {
      assert prefixes[1..][i - 1] == prefixes[i];
      ReplaceNamespaceCompacts(prefixes[1..], i - 1, local);
    }
  }

  /** When `local` does not repeat the namespace, `ns + local` becomes exactly
      `prefix:local`. */
  lemma ReplaceNamespaceCompactsOnce(prefixes: Dict<string>, i: nat, local: string)
    requires i < |prefixes| && |prefixes[i].1| > 0
    requires forall j :: 0 <= j < i ==> !Contains(prefixes[i].1 + local, prefixes[j].1)
    requires !Contains(local, prefixes[i].1)
    ensures ReplaceNamespace(prefixes[i].1 + local, prefixes) == prefixes[i].0 + ":" + local
  {
    ReplaceNamespaceCompacts(prefixes, i, local);
    ReplaceAbsent(local, prefixes[i].1, prefixes[i].0 + ":");
  }

  /** Python truthiness of an optional string argument (`if namespace:`). */
  function NonEmpty(s: string): Option<string>
  {
    if s == "" then None else Some(s)
  }

  /** `convert_path_to_namespace`: the last two `/`-segments of a shape IRI joined by
      `:`, every "Shape" removed from the last one, the first one replaced by
      `namespace` when given, lower-cased for node names. */
  function ConvertPathToNamespace(path: string, asNodeName: bool, namespace: Option<string>): (r: string)
  {
    var parts := Split(path, "/");
    var last := if |parts| >= 2 then parts[|parts| - 2..] else parts;
    var stripped := last[..|last| - 1] + [Replace(last[|last| - 1], "Shape", "")];
    var named := if namespace.Some? && namespace.value != "" then [namespace.value] + stripped[1..] else stripped;
    var joined := Join(":", named);
    if asNodeName then Lower(joined) else joined
  }

  /** The name built from the last two segments, as `convert_path_to_namespace` does. */
  function SegmentName(segs: seq<string>, asNodeName: bool, namespace: Option<string>): string
    requires |segs| >= 2
  {
    var first := if namespace.Some? && namespace.value != "" then namespace.value else segs[|segs| - 2];
    var joined := first + ":" + Replace(segs[|segs| - 1], "Shape", "");
    if asNodeName then Lower(joined) else joined
  }

  lemma ConvertParts(path: string, asNodeName: bool, namespace: Option<string>)
    requires |Split(path, "/")| >= 2
    ensures ConvertPathToNamespace(path, asNodeName, namespace) == SegmentName(Split(path, "/"), asNodeName, namespace)
  {
    var parts := Split(path, "/");
    var n := |parts|;
    var last := parts[n - 2..];
    assert last == [parts[n - 2], parts[n - 1]];
    var stripped := last[..1] + [Replace(last[1], "Shape", "")];
    var named := if namespace.Some? && namespace.value != "" then [namespace.value] + stripped[1..] else stripped;
    assert |named| == 2 && named[1] == Replace(parts[n - 1], "Shape", "");
    assert Join(":", named) == named[0] + ":" + named[1];
  }

  /** For a shape IRI made of `/`-free segments, the name is built from its last two:
      the second-to-last (or the namespace given) and the last with "Shape" removed. */
  lemma ConvertSegments(segs: seq<string>, asNodeName: bool, namespace: Option<string>)
    requires |segs| >= 2
    requires forall i :: 0 <= i < |segs| ==> '/' !in segs[i]
    ensures ConvertPathToNamespace(Join("/", segs), asNodeName, namespace) == SegmentName(segs, asNodeName, namespace)
  {
    SplitJoin(segs, '/');
    assert Join("/", segs) == Join(['/'], segs);
    ConvertParts(Join("/", segs), asNodeName, namespace);
  }

  /** The datatype of a key: does `key` (lower-cased when asked) contain `name`? */
  predicate KeyMatches(name: string, key: string, lowerCase: bool)
  {
    Contains(if lowerCase then Lower(key) else key, name)
  }

  /** The index of the first key, in insertion order, that contains `name`. */
  function FirstMatch<V>(name: string, d: Dict<V>, lowerCase: bool): (r: Option<nat>)
    ensures r.Some? ==> r.value < |d| && KeyMatches(name, d[r.value].0, lowerCase)
    ensures r.Some? ==> forall j :: 0 <= j < r.value ==> !KeyMatches(name, d[j].0, lowerCase)
    ensures r.None? ==> forall j :: 0 <= j < |d| ==> !KeyMatches(name, d[j].0, lowerCase)
  {
    if |d| == 0 then None
    else if KeyMatches(name, d[0].0, lowerCase) then Some(0)
    else
      match FirstMatch(name, d[1..], lowerCase)
      case None => None
      case Some(i) => Some(i + 1)
  }

  /** `getValue`: the value of the first key that contains `name`. */
  function GetValue<V>(name: string, d: Dict<V>, lowerCase: bool): Option<V>
  {
    match FirstMatch(name, d, lowerCase)
    case None => None
    case Some(i) => Some(d[i].1)
  }

  /** `get_data_from_metadata`: `meta[path]` when `path in meta`, else None (JNull). */
  function DataFromMetadata(path: string, meta: Json): (r: Result<Json>)
    ensures meta.JObj? ==> r == Ok(match Get(meta.fields, path) case Some(v) => v case None => JNull)
  {
    var found :- In(path, meta);
    if found then Index(meta, path) else Ok(JNull)
  }

  /** `get_namespace`: the first two `:`-separated parts; IndexError with fewer. */
  function GetNamespace(nameWithNs: string): (r: Result<(string, string)>)
    ensures r.Ok? <==> |Split(nameWithNs, ":")| >= 2
    ensures r.Ok? && |Split(nameWithNs, ":")| == 2 ==> r.value.0 + ":" + r.value.1 == nameWithNs
  {
    var parts := Split(nameWithNs, ":");
    if |parts| < 2 then Err(IndexError("tuple index out of range"))
    else if |parts| == 2 then
      SplitTwo(nameWithNs, ':');
      Ok((parts[0], parts[1]))
    else Ok((parts[0], parts[1]))
  }

  /** A text with exactly one separator is its two parts around it. */
  lemma SplitTwo(s: string, c: char)
    requires |Split(s, [c])| == 2
    ensures Split(s, [c])[0] + [c] + Split(s, [c])[1] == s
  {
    var i := IndexOf(s, [c]).value;
    assert s[i..i + 1] == [c];
    var tail := s[i + 1..];
    assert Split(tail, [c]) == [tail];
    assert s == s[..i] + [c] + tail;
  }

  /** `is_in_namespace`: `namespace:` occurs in `name`. */
  predicate IsInNamespace(name: string, namespace: string)
  {
    Contains(name, namespace + ":")
  }

  /** `get_uri_from_namespace`: the IRI up to and including its last `#`; without
      a `#`, up to and including its last `/` (a `/` is appended to a text with
      neither). */
  function UriFromNamespace(value: string): (r: string)
    ensures '#' in value ==> EndsWith(r, "#") && StartsWith(value, r) && '#' !in value[|r|..]
    ensures '#' !in value && '/' in value ==> EndsWith(r, "/") && StartsWith(value, r) && '/' !in value[|r|..]
    ensures '#' !in value && '/' !in value ==> r == value + "/"
  {
    match LastIndexOfChar(value, '#')
    case Some(i) =>
      assert value[..i + 1] == value[..i] + "#";
      value[..i] + "#"
    case None =>
      match LastIndexOfChar(value, '/')
      case Some(j) =>
        assert value[..j + 1] == value[..j] + "/";
        value[..j] + "/"
      case None => value + "/"
  }

  /** The namespace of a namespace is itself. */
  lemma UriFromNamespaceIdempotent(value: string)
    ensures UriFromNamespace(UriFromNamespace(value)) == UriFromNamespace(value)
  {
    var r := UriFromNamespace(value);
    match LastIndexOfChar(value, '#')
    case Some(i) =>
      assert r == value[..i] + "#";
      LastIndexAt(value[..i], "#", '#');
      assert r[..i] == value[..i];
      assert UriFromNamespace(r) == r[..i] + "#";
    case None =>
      match LastIndexOfChar(value, '/')
      case Some(j) =>
        assert r == value[..j] + "/";
        assert '#' !in r;
        LastIndexAt(value[..j], "/", '/');
        assert r[..j] == value[..j];
        assert UriFromNamespace(r) == r[..j] + "/";
      case None =>
        assert r == value + "/";
        assert '#' !in r;
        LastIndexAt(value, "/", '/');
        assert r[..|value|] == value;
        assert UriFromNamespace(r) == r[..|value|] + "/";
  }

  // ------------------------------------------------------------ the walk

  /** The fixed inputs of one `fill_content` walk. */
  datatype Ctx = Ctx(shapes: ShapeTable, prefixes: Dict<string>, schemaName: string)

  /** The state `fill_content` carries from one property to the next: the group it
      fills, the per-element object used when the group is a list, and the Python
      local `data_type` (unbound until the first single-valued literal). */
  datatype FillState = FillState(group: Json, propGroup: Dict<Json>, dataType: Option<string>)

  /** `create_group` without registration: a new list, or a dict typed after the node. */
  function NewGroup(asList: bool, nodePath: string, namespace: Option<string>): (r: Json)
    ensures asList ==> r == JArr([])
    ensures !asList ==> r.JObj? && r.fields == [("@type", JStr(ConvertPathToNamespace(nodePath, false, namespace)))]
  {
    if asList then JArr([])
    else JObj([("@type", JStr(ConvertPathToNamespace(nodePath, false, namespace)))])
  }

  /** A typed singleton value. */
  function Typed(dt: string, v: Json): Json
  {
    JObj([("@type", JStr(dt)), ("@value", v)])
  }

  function InitialState(c: Ctx, nodePath: string, group: Json): FillState
  {
    FillState(group, [("@type", JStr(ConvertPathToNamespace(nodePath, false, NonEmpty(c.schemaName))))], None)
  }

  /** Registering a literal: into the per-element object when the group is a list,
      into the group itself otherwise. */
  function Store(st: FillState, key: string, prop: Json): (r: Result<FillState>)
    ensures st.group.JArr? ==> r == Ok(st.(propGroup := Put(st.propGroup, key, prop)))
    ensures st.group.JObj? ==> r == Ok(st.(group := JObj(Put(st.group.fields, key, prop))))
  {
    if st.group.JArr? then Ok(st.(propGroup := Put(st.propGroup, key, prop)))
    else if st.group.JObj? then Ok(st.(group := JObj(Put(st.group.fields, key, prop))))
    else Err(TypeError("object does not support item assignment"))
  }

  /** The default a required-but-missing literal receives, read through the
      `data_type` local as it stands (possibly left over from an earlier property). */
  function DefaultFor(dataType: Option<string>): (r: Result<Json>)
    ensures dataType.None? ==> r == Err(UnboundLocalError("data_type"))
    ensures dataType.Some? && DataTypeEntry(dataType.value).None? ==> r == Err(KeyError(dataType.value))
    ensures dataType.Some? && DataTypeEntry(dataType.value).Some? ==>
              r == Ok(CheckValueType(DataTypeEntry(dataType.value).value.defaultText, dataType.value))
  {
    match dataType
    case None => Err(UnboundLocalError("data_type"))
    case Some(dt) =>
      (match DataTypeEntry(dt)
       case None => Err(KeyError(dt))
       case Some(e) => Ok(CheckValueType(e.defaultText, dt)))
  }

  /** One literal property (one with a datatype and no node). */
  function LiteralStep(c: Ctx, st: FillState, p: PropMap, meta: Json, propType: string): Result<FillState>
  {
    var isList :- IsList(p);
    var dataType := if isList then st.dataType else Some(ReplaceNamespace(propType, c.prefixes));
    var st1 := st.(dataType := dataType);
    match GetValue("path", p, false)
    case None => Err(TypeError("argument of type 'NoneType' is not iterable"))
    case Some(rawPath) =>
      var path := ReplaceNamespace(rawPath, c.prefixes);
      var data :- DataFromMetadata(path, meta);
      if data != JNull then
        if isList then
          var xs :- Iter(data);
          Store(st1, Lower(path), JArr(xs))
        else Store(st1, Lower(path), Typed(dataType.value, data))
      else
        var required :- IsRequired(p);
        if !required then Ok(st1)
        else
          var v :- DefaultFor(dataType);
          if isList then Store(st1, Lower(path), JArr([v]))
          else Store(st1, Lower(path), Typed(dataType.value, v))
  }

  /** One iteration of `fill_content`'s property loop. */
  function PropStep(c: Ctx, st: FillState, p: PropMap, meta: Json): Result<FillState>
    decreases meta, 1
  {
    var propNode := GetValue("node", p, false);
    if propNode.Some? && propNode.value != "" then NodeStep(c, st, p, meta, propNode.value)
    else
      match GetValue("datatype", p, false)
      case None => Ok(st)
      case Some(propType) => if propType == "" then Ok(st) else LiteralStep(c, st, p, meta, propType)
  }

  /** A property with a node: when the node is a shape of this ontology and its
      path is in the metadata, a sub-group is registered under the path and filled. */
  function NodeStep(c: Ctx, st: FillState, p: PropMap, meta: Json, propNode: string): Result<FillState>
    decreases meta, 0
  {
    match Get(c.shapes, propNode)
    case None => Ok(st)
    case Some(sub) =>
      match GetValue("path", p, false)
      case None => Err(AttributeError("'NoneType' object has no attribute 'split'"))
      case Some(rawPath) =>
        var key := ConvertPathToNamespace(rawPath, true, NonEmpty(c.schemaName));
        var isListSub :- IsList(p);
        var present :- In(key, meta);
        if !present then Ok(st)
        else
          var metaSub :- Index(meta, key);
          if !st.group.JObj? then Err(TypeError("list indices must be integers or slices, not str"))
          else
            IndexSmaller(meta, key);
            var filled :- FillSub(c, sub, propNode, NewGroup(isListSub, propNode, NonEmpty(c.schemaName)), metaSub);
            Ok(st.(group := JObj(Put(st.group.fields, key, filled))))
  }

  /** The property loop of `fill_content`, from property `i` on. */
  function FoldProps(c: Ctx, props: seq<PropMap>, i: nat, meta: Json, st: FillState): Result<FillState>
    requires i <= |props|
    decreases meta, 2, |props| - i
  {
    if i == |props| then Ok(st)
    else
      var next :- PropStep(c, st, props[i], meta);
      FoldProps(c, props, i + 1, meta, next)
  }

  /** `fill_content`: fills `group` from `meta` along the node's property shapes;
      a list group receives exactly one new object at the end. */
  function FillContentSpec(c: Ctx, shape: seq<PropMap>, nodePath: string, group: Json, meta: Json): Result<Json>
    decreases meta, 3
  {
    var st :- FoldProps(c, shape, 0, meta, InitialState(c, nodePath, group));
    if st.group.JArr? then Ok(JArr(st.group.items + [JObj(st.propGroup)])) else Ok(st.group)
  }

  /** The sub-node call of `fill_content`: once per element when the metadata is a list. */
  function FillSub(c: Ctx, shape: seq<PropMap>, nodePath: string, group: Json, metaSub: Json): Result<Json>
    decreases metaSub, 5
  {
    if metaSub.JArr? then FillEach(c, shape, nodePath, group, metaSub, 0)
    else FillContentSpec(c, shape, nodePath, group, metaSub)
  }

  /** `fill_content` applied in turn to the elements of a metadata list, from element `k` on. */
  function FillEach(c: Ctx, shape: seq<PropMap>, nodePath: string, group: Json, metaSub: Json, k: nat): Result<Json>
    requires metaSub.JArr? && k <= |metaSub.items|
    decreases metaSub, 4, |metaSub.items| - k
  {
    if k == |metaSub.items| then Ok(group)
    else
      var g :- FillContentSpec(c, shape, nodePath, group, metaSub.items[k]);
      FillEach(c, shape, nodePath, g, metaSub, k + 1)
  }

  // ------------------------------------------------------ the walk, imperative

  /** `fill_content`. */
  method FillContent(c: Ctx, shape: seq<PropMap>, nodePath: string, group: Json, meta: Json) returns (r: Result<Json>)
    ensures r == FillContentSpec(c, shape, nodePath, group, meta)
    decreases meta, 3
  {
    var st0 := InitialState(c, nodePath, group);
    var st := st0;
    for i := 0 to |shape|
      invariant FoldProps(c, shape, 0, meta, st0) == FoldProps(c, shape, i, meta, st)
    {
      var next := FillProperty(c, st, shape[i], meta);
      FoldPropsNext(c, shape, i, meta, st);
      if next.Err? {
        return Err(next.error);
      }
      st := next.value;
    }
    FillContentFinish(c, shape, nodePath, group, meta, st);
    if st.group.JArr? {
      r := Ok(JArr(st.group.items + [JObj(st.propGroup)]));
    } else {
      r := Ok(st.group);
    }
  }

  /** After the properties, a list group gains the per-element object. */
  lemma FillContentFinish(c: Ctx, shape: seq<PropMap>, nodePath: string, group: Json, meta: Json, st: FillState)
    requires FoldProps(c, shape, 0, meta, InitialState(c, nodePath, group)) == Ok(st)
    ensures FillContentSpec(c, shape, nodePath, group, meta)
            == Ok(if st.group.JArr? then JArr(st.group.items + [JObj(st.propGroup)]) else st.group)
  {
  }

  /** One more property of the fold: its error, or the fold from the next one. */
  lemma FoldPropsNext(c: Ctx, props: seq<PropMap>, i: nat, meta: Json, st: FillState)
    requires i < |props|
    ensures PropStep(c, st, props[i], meta).Err? ==> FoldProps(c, props, i, meta, st) == Err(PropStep(c, st, props[i], meta).error)
    ensures PropStep(c, st, props[i], meta).Ok? ==>
              FoldProps(c, props, i, meta, st) == FoldProps(c, props, i + 1, meta, PropStep(c, st, props[i], meta).value)
  {
  }

  /** One property of `fill_content`'s loop. */
  method FillProperty(c: Ctx, st: FillState, p: PropMap, meta: Json) returns (r: Result<FillState>)
    ensures r == PropStep(c, st, p, meta)
    decreases meta, 2
  {
    var propNode := GetValue("node", p, false);
    if propNode.Some? && propNode.value != "" {
      r := FillNodeProperty(c, st, p, meta, propNode.value);
      return;
    }
    var propType := GetValue("datatype", p, false);
    if propType.None? || propType.value == "" {
      return Ok(st);
    }
    r := FillLiteral(c, st, p, meta, propType.value);
  }

  /** A property with a sub-structure. */
  method FillNodeProperty(c: Ctx, st: FillState, p: PropMap, meta: Json, propNode: string) returns (r: Result<FillState>)
    ensures r == NodeStep(c, st, p, meta, propNode)
    decreases meta, 1
  {
    var sub := Get(c.shapes, propNode);
    if sub.None? {
      return Ok(st);
    }
    var rawPath := GetValue("path", p, false);
    if rawPath.None? {
      return Err(AttributeError("'NoneType' object has no attribute 'split'"));
    }
    r := FillNodeAt(c, st, p, meta, propNode, sub.value, rawPath.value);
  }

  /** A property whose node is a shape of this ontology and whose path is known. */
  method FillNodeAt(c: Ctx, st: FillState, p: PropMap, meta: Json, propNode: string, sub: seq<PropMap>, rawPath: string)
    returns (r: Result<FillState>)
    requires Get(c.shapes, propNode) == Some(sub) && GetValue("path", p, false) == Some(rawPath)
    ensures r == NodeStep(c, st, p, meta, propNode)
    decreases meta, 0
  {
    var key := ConvertPathToNamespace(rawPath, true, NonEmpty(c.schemaName));
    var isListSub :- IsList(p);
    var present :- In(key, meta);
    if !present {
      return Ok(st);
    }
    var metaSub :- Index(meta, key);
    if !st.group.JObj? {
      return Err(TypeError("list indices must be integers or slices, not str"));
    }
    IndexSmaller(meta, key);
    var filled :- FillSubGroup(c, sub, propNode, NewGroup(isListSub, propNode, NonEmpty(c.schemaName)), metaSub);
    return Ok(st.(group := JObj(Put(st.group.fields, key, filled))));
  }

  /** A literal property: its value is copied from the metadata, or defaulted when required. */
  method FillLiteral(c: Ctx, st: FillState, p: PropMap, meta: Json, propType: string) returns (r: Result<FillState>)
    ensures r == LiteralStep(c, st, p, meta, propType)
  {
    LiteralStepEarly(c, st, p, meta, propType);
    var isList :- IsList(p);
    var rawPath := GetValue("path", p, false);
    if rawPath.None? {
      return Err(TypeError("argument of type 'NoneType' is not iterable"));
    }
    r := FillLiteralAt(c, st, p, meta, propType, isList, rawPath.value);
  }

  /** The two failures of a literal property before its metadata is looked up. */
  lemma LiteralStepEarly(c: Ctx, st: FillState, p: PropMap, meta: Json, propType: string)
    ensures IsList(p).Err? ==> LiteralStep(c, st, p, meta, propType) == Err(IsList(p).error)
    ensures IsList(p).Ok? && GetValue("path", p, false).None? ==>
              LiteralStep(c, st, p, meta, propType) == Err(TypeError("argument of type 'NoneType' is not iterable"))
  {
  }

  /** A literal property whose list flag and path are known. */
  method FillLiteralAt(c: Ctx, st: FillState, p: PropMap, meta: Json, propType: string, isList: bool, rawPath: string)
    returns (r: Result<FillState>)
    requires IsList(p) == Ok(isList) && GetValue("path", p, false) == Some(rawPath)
    ensures r == LiteralStep(c, st, p, meta, propType)
  {
    var dataType := if isList then st.dataType else Some(ReplaceNamespace(propType, c.prefixes));
    var st1 := st.(dataType := dataType);
    var path := ReplaceNamespace(rawPath, c.prefixes);
    var data :- DataFromMetadata(path, meta);
    if data != JNull {
      if isList {
        var xs :- Iter(data);
        var items := CopyItems(xs);
        return Store(st1, Lower(path), JArr(items));
      }
      return Store(st1, Lower(path), Typed(dataType.value, data));
    }
    var required :- IsRequired(p);
    if !required {
      return Ok(st1);
    }
    var v :- DefaultFor(dataType);
    if isList {
      return Store(st1, Lower(path), JArr([v]));
    }
    return Store(st1, Lower(path), Typed(dataType.value, v));
  }

  /** The list a list literal is collected into, one item at a time. */
  method CopyItems(xs: seq<Json>) returns (items: seq<Json>)
    ensures items == xs
  {
    items := [];
    for k := 0 to |xs|
      invariant items == xs[..k]
    {
      items := items + [xs[k]];
    }
  }

  /** The sub-node call: `fill_content` on each element of a metadata list, or once. */
  method FillSubGroup(c: Ctx, shape: seq<PropMap>, nodePath: string, group: Json, metaSub: Json) returns (r: Result<Json>)
    ensures r == FillSub(c, shape, nodePath, group, metaSub)
    decreases metaSub, 5
  {
    if !metaSub.JArr? {
      r := FillContent(c, shape, nodePath, group, metaSub);
      return;
    }
    var g := group;
    var k := 0;
    while k < |metaSub.items|
      invariant k <= |metaSub.items|
      invariant FillEach(c, shape, nodePath, group, metaSub, 0) == FillEach(c, shape, nodePath, g, metaSub, k)
    {
      var next := FillContent(c, shape, nodePath, g, metaSub.items[k]);
      if next.Err? {
        return Err(next.error);
      }
      g := next.value;
      k := k + 1;
    }
    r := Ok(g);
  }

  // ------------------------------------------------- fill_properties, specified

  /** One property of a foreign node shape: a sub-node of the foreign ontology that
      the metadata holds is filled once and registered in the group. */
  function ForeignProperty(c: Ctx, q: PropMap, metaSub: Json, groupDict: Dict<Json>): Result<Dict<Json>>
  {
    match GetValue("node", q, false)
    case None => Ok(groupDict)
    case Some(nodeAdd) =>
      match Get(c.shapes, nodeAdd)
      case None => Ok(groupDict)
      case Some(node) =>
        match GetValue("path", q, false)
        case None => Err(AttributeError("'NoneType' object has no attribute 'split'"))
        case Some(rawPath) =>
          var key := ConvertPathToNamespace(rawPath, true, NonEmpty(c.schemaName));
          var present :- In(key, metaSub);
          if !present then Ok(groupDict)
          else
            var asList :- IsList(q);
            var sub :- Index(metaSub, key);
            var filled :- FillContentSpec(c, node, nodeAdd, NewGroup(asList, nodeAdd, NonEmpty(c.schemaName)), sub);
            Ok(Put(groupDict, key, filled))
  }

  /** The loop over a foreign node shape's properties, from property `i` on. */
  function FoldForeign(c: Ctx, props: seq<PropMap>, i: nat, metaSub: Json, groupDict: Dict<Json>): Result<Dict<Json>>
    requires i <= |props|
    decreases |props| - i
  {
    if i == |props| then Ok(groupDict)
    else
      var next :- ForeignProperty(c, props[i], metaSub, groupDict);
      FoldForeign(c, props, i + 1, metaSub, next)
  }

  /** A node of the schema shape that its own ontology does not define: it is looked
      up in the ontology its name's prefix designates and, when the metadata holds
      it, registered as a typed group filled from that ontology. */
  function ForeignStep(shacls: Shacls, meta: Json, ns: string, nodePath: string, json: Dict<Json>): Result<Dict<Json>>
  {
    var pair :- GetNamespace(ConvertPathToNamespace(nodePath, false, None));
    var fns := pair.0;
    if fns !in shacls then Ok(json)
    else
      var fg := shacls[fns];
      match Get(fg.shapes, nodePath)
      case None => Ok(json)
      case Some(fshape) =>
        var groupName := ConvertPathToNamespace(nodePath, true, NonEmpty(ns));
        var present :- In(groupName, meta);
        if !present then Ok(json)
        else
          var metaSub :- Index(meta, groupName);
          var groupDict := [("@type", JStr(ConvertPathToNamespace(nodePath, false, None)))];
          var filled :- FoldForeign(Ctx(fg.shapes, fg.prefixes, fns), fshape, 0, metaSub, groupDict);
          Ok(Put(json, groupName, JObj(filled)))
  }

  /** One property of the schema shape: a node of the schema's ontology that the
      metadata holds is registered as a group and filled once. */
  function RootStep(shacls: Shacls, meta: Json, ns: string, name: string, g: ShaclGraph, p: PropMap, json: Dict<Json>): Result<Dict<Json>>
  {
    var nodePath := GetValue("node", p, false);
    if nodePath.None? || nodePath.value == "" then Ok(json)
    else
      match Get(g.shapes, nodePath.value)
      case None => ForeignStep(shacls, meta, ns, nodePath.value, json)
      case Some(node) => LocalNodeStep(meta, ns, name, g, p, json, nodePath.value, node)
  }

  /** A node of the schema's own ontology: registered as a group and filled
      once when the metadata holds it. */
  function LocalNodeStep(meta: Json, ns: string, name: string, g: ShaclGraph, p: PropMap, json: Dict<Json>,
                         nodePath: string, node: seq<PropMap>): Result<Dict<Json>>
  {
    match GetValue("path", p, false)
    case None => Err(AttributeError("'NoneType' object has no attribute 'split'"))
    case Some(rawPath) =>
      var key := ConvertPathToNamespace(rawPath, true, NonEmpty(ns));
      var present :- In(key, meta);
      if !present then Ok(json)
      else
        var metaSub :- Index(meta, key);
        var asList :- IsList(p);
        var group := NewGroup(asList, nodePath, NonEmpty(Lower(name)));
        var filled :- FillContentSpec(Ctx(g.shapes, g.prefixes, ns), node, nodePath, group, metaSub);
        Ok(Put(json, key, filled))
  }

  /** The loop over the schema shape's properties, from property `i` on. */
  function FoldRoot(shacls: Shacls, meta: Json, ns: string, name: string, g: ShaclGraph,
                    props: seq<PropMap>, i: nat, json: Dict<Json>): Result<Dict<Json>>
    requires i <= |props|
    decreases |props| - i
  {
    if i == |props| then Ok(json)
    else
      var next :- RootStep(shacls, meta, ns, name, g, props[i], json);
      FoldRoot(shacls, meta, ns, name, g, props, i + 1, next)
  }

  /** `fill_properties`: the claim after filling the schema shape (`<name>shape`,
      matched case-insensitively) from the metadata; unchanged without one. */
  function FillPropertiesSpec(shacls: Shacls, meta: Json, ns: string, name: string, json: Dict<Json>): Result<Dict<Json>>
  {
    if ns !in shacls then Err(KeyError(ns))
    else
      var g := shacls[ns];
      match GetValue(Lower(name + "shape"), g.shapes, true)
      case None => Ok(json)
      case Some(shape) => FoldRoot(shacls, meta, ns, name, g, shape, 0, json)
  }

  const ClaimIdPrefix: string := "did:web:envited.register.market:"

  /** The header of a claim: the ontology's prefixes, the DID and the asset type. */
  function ClaimHeader(g: ShaclGraph, ns: string, name: string, did: string): Dict<Json>
  {
    [("@context", JObj(StrObj(g.prefixes))), ("@id", JStr(ClaimIdPrefix + ns + ":" + did)), ("@type", JStr(ns + ":" + name))]
  }

  /** `fill_claim_data`: an empty claim for an unknown ontology, else the header
      followed by what `fill_properties` adds. */
  function FillClaimDataSpec(ns: string, name: string, shacls: Shacls, meta: Json, did: string): Result<Dict<Json>>
  {
    if ns !in shacls then Ok([])
    else FillPropertiesSpec(shacls, meta, ns, name, ClaimHeader(shacls[ns], ns, name, did))
  }

  // ----------------------------------------------- fill_properties, imperative

  /** One property of a foreign node shape. */
  method FillForeignProperty(c: Ctx, q: PropMap, metaSub: Json, groupDict: Dict<Json>) returns (r: Result<Dict<Json>>)
    ensures r == ForeignProperty(c, q, metaSub, groupDict)
  {
    var nodeAdd := GetValue("node", q, false);
    if nodeAdd.None? {
      return Ok(groupDict);
    }
    var node := Get(c.shapes, nodeAdd.value);
    if node.None? {
      return Ok(groupDict);
    }
    var rawPath := GetValue("path", q, false);
    if rawPath.None? {
      return Err(AttributeError("'NoneType' object has no attribute 'split'"));
    }
    r := FillForeignAt(c, q, metaSub, groupDict, nodeAdd.value, node.value, rawPath.value);
  }

  /** A foreign property whose node is a known shape and whose path is known. */
  method FillForeignAt(c: Ctx, q: PropMap, metaSub: Json, groupDict: Dict<Json>, nodeAdd: string, node: seq<PropMap>, rawPath: string)
    returns (r: Result<Dict<Json>>)
    requires GetValue("node", q, false) == Some(nodeAdd) && Get(c.shapes, nodeAdd) == Some(node)
    requires GetValue("path", q, false) == Some(rawPath)
    ensures r == ForeignProperty(c, q, metaSub, groupDict)
  {
    var key := ConvertPathToNamespace(rawPath, true, NonEmpty(c.schemaName));
    var present :- In(key, metaSub);
    if !present {
      return Ok(groupDict);
    }
    var asList :- IsList(q);
    var sub :- Index(metaSub, key);
    var filled :- FillContent(c, node, nodeAdd, NewGroup(asList, nodeAdd, NonEmpty(c.schemaName)), sub);
    return Ok(Put(groupDict, key, filled));
  }

  /** The foreign-ontology branch of `fill_properties`. */
  method FillForeignGroup(shacls: Shacls, meta: Json, ns: string, nodePath: string, json: Dict<Json>) returns (r: Result<Dict<Json>>)
    ensures r == ForeignStep(shacls, meta, ns, nodePath, json)
  {
    var pair :- GetNamespace(ConvertPathToNamespace(nodePath, false, None));
    var fns := pair.0;
    if fns !in shacls {
      return Ok(json);
    }
    var fg := shacls[fns];
    var fshape := Get(fg.shapes, nodePath);
    if fshape.None? {
      return Ok(json);
    }
    var groupName := ConvertPathToNamespace(nodePath, true, NonEmpty(ns));
    var present :- In(groupName, meta);
    if !present {
      return Ok(json);
    }
    var metaSub :- Index(meta, groupName);
    var c := Ctx(fg.shapes, fg.prefixes, fns);
    var props := fshape.value;
    var d0 := [("@type", JStr(ConvertPathToNamespace(nodePath, false, None)))];
    var d := d0;
    var i := 0;
    while i < |props|
      invariant i <= |props|
      invariant FoldForeign(c, props, 0, metaSub, d0) == FoldForeign(c, props, i, metaSub, d)
    {
      var next := FillForeignProperty(c, props[i], metaSub, d);
      if next.Err? {
        assert FoldForeign(c, props, i, metaSub, d) == Err(next.error);
        return Err(next.error);
      }
      assert FoldForeign(c, props, i, metaSub, d) == FoldForeign(c, props, i + 1, metaSub, next.value);
      d := next.value;
      i := i + 1;
    }
    return Ok(Put(json, groupName, JObj(d)));
  }

  /** One property of the schema shape. */
  method FillRootProperty(shacls: Shacls, meta: Json, ns: string, name: string, g: ShaclGraph, p: PropMap, json: Dict<Json>)
    returns (r: Result<Dict<Json>>)
    ensures r == RootStep(shacls, meta, ns, name, g, p, json)
  {
    var nodePath := GetValue("node", p, false);
    if nodePath.None? || nodePath.value == "" {
      return Ok(json);
    }
    var node := Get(g.shapes, nodePath.value);
    if node.None? {
      r := FillForeignGroup(shacls, meta, ns, nodePath.value, json);
      return;
    }
    r := FillLocalNode(meta, ns, name, g, p, json, nodePath.value, node.value);
  }

  /** A node of the schema's own ontology. */
  method FillLocalNode(meta: Json, ns: string, name: string, g: ShaclGraph, p: PropMap, json: Dict<Json>,
                       nodePath: string, node: seq<PropMap>) returns (r: Result<Dict<Json>>)
    ensures r == LocalNodeStep(meta, ns, name, g, p, json, nodePath, node)
  {
    var rawPath := GetValue("path", p, false);
    if rawPath.None? {
      return Err(AttributeError("'NoneType' object has no attribute 'split'"));
    }
    var key := ConvertPathToNamespace(rawPath.value, true, NonEmpty(ns));
    var present :- In(key, meta);
    if !present {
      return Ok(json);
    }
    var metaSub :- Index(meta, key);
    var asList :- IsList(p);
    var group := NewGroup(asList, nodePath, NonEmpty(Lower(name)));
    var filled :- FillContent(Ctx(g.shapes, g.prefixes, ns), node, nodePath, group, metaSub);
    return Ok(Put(json, key, filled));
  }

  /** `fill_properties`. */
  method FillProperties(shacls: Shacls, meta: Json, ns: string, name: string, json: Dict<Json>) returns (r: Result<Dict<Json>>)
    ensures r == FillPropertiesSpec(shacls, meta, ns, name, json)
    ensures ns in shacls && GetValue(Lower(name + "shape"), shacls[ns].shapes, true).None? ==> r == Ok(json)
  {
    if ns !in shacls {
      return Err(KeyError(ns));
    }
    var g := shacls[ns];
    var shape := GetValue(Lower(name + "shape"), g.shapes, true);
    if shape.None? {
      return Ok(json);
    }
    var props := shape.value;
    var d := json;
    var i := 0;
    while i < |props|
      invariant i <= |props|
      invariant FoldRoot(shacls, meta, ns, name, g, props, 0, json) == FoldRoot(shacls, meta, ns, name, g, props, i, d)
    {
      var next := FillRootProperty(shacls, meta, ns, name, g, props[i], d);
      if next.Err? {
        assert FoldRoot(shacls, meta, ns, name, g, props, i, d) == Err(next.error);
        return Err(next.error);
      }
      assert FoldRoot(shacls, meta, ns, name, g, props, i, d) == FoldRoot(shacls, meta, ns, name, g, props, i + 1, next.value);
      d := next.value;
      i := i + 1;
    }
    return Ok(d);
  }

  /** `fill_claim_data`: the claim starts with its three header keys, in order. */
  method FillClaimData(ns: string, name: string, shacls: Shacls, meta: Json, did: string) returns (r: Result<Dict<Json>>)
    ensures r == FillClaimDataSpec(ns, name, shacls, meta, did)
    ensures ns !in shacls ==> r == Ok([])
    ensures ns in shacls && r.Ok? ==> |r.value| >= 3 && Keys(r.value)[..3] == ["@context", "@id", "@type"]
  {
    if ns !in shacls {
      return Ok([]);
    }
    var header := ClaimHeader(shacls[ns], ns, name, did);
    r := FillProperties(shacls, meta, ns, name, header);
    if r.Ok? {
      FillPropertiesKeepsKeys(shacls, meta, ns, name, header);
      assert Keys(header) == ["@context", "@id", "@type"];
    }
  }

  // ------------------------------------------------------- what the walk keeps

  /** A list group is never written to by a property step: literals go to the
      per-element object, and sub-nodes under a list raise. */
  lemma PropStepKeepsList(c: Ctx, st: FillState, p: PropMap, meta: Json)
    requires st.group.JArr? && PropStep(c, st, p, meta).Ok?
    ensures PropStep(c, st, p, meta).value.group == st.group
  {
    var propNode := GetValue("node", p, false);
    if propNode.Some? && propNode.value != "" {
      NodeStepKeepsList(c, st, p, meta, propNode.value);
    } else if GetValue("datatype", p, false).Some? && GetValue("datatype", p, false).value != "" {
      LiteralStepKeepsList(c, st, p, meta, GetValue("datatype", p, false).value);
    }
  }

  lemma NodeStepKeepsList(c: Ctx, st: FillState, p: PropMap, meta: Json, propNode: string)
    requires st.group.JArr? && NodeStep(c, st, p, meta, propNode).Ok?
    ensures NodeStep(c, st, p, meta, propNode).value == st
  {
  }

  lemma LiteralStepKeepsList(c: Ctx, st: FillState, p: PropMap, meta: Json, propType: string)
    requires st.group.JArr? && LiteralStep(c, st, p, meta, propType).Ok?
    ensures LiteralStep(c, st, p, meta, propType).value.group == st.group
  {
    var isList := IsList(p).value;
    var dataType := if isList then st.dataType else Some(ReplaceNamespace(propType, c.prefixes));
    var st1 := st.(dataType := dataType);
    var path := ReplaceNamespace(GetValue("path", p, false).value, c.prefixes);
    var data := DataFromMetadata(path, meta).value;
    var r := LiteralStep(c, st, p, meta, propType);
    assert r == Ok(st1) || exists v :: r == Store(st1, Lower(path), v) by {
      if data != JNull {
        if isList {
          assert r == Store(st1, Lower(path), JArr(Iter(data).value));
        } else {
          assert r == Store(st1, Lower(path), Typed(dataType.value, data));
        }
      } else if IsRequired(p).value {
        var v := DefaultFor(dataType).value;
        if isList {
          assert r == Store(st1, Lower(path), JArr([v]));
        } else {
          assert r == Store(st1, Lower(path), Typed(dataType.value, v));
        }
      }
    }
  }

  lemma {:induction false} FoldKeepsList(c: Ctx, props: seq<PropMap>, i: nat, meta: Json, st: FillState)
    requires i <= |props| && st.group.JArr?
    requires FoldProps(c, props, i, meta, st).Ok?
    ensures FoldProps(c, props, i, meta, st).value.group == st.group
    decreases |props| - i
  {
    if i < |props| {
      PropStepKeepsList(c, st, props[i], meta);
      FoldKeepsList(c, props, i + 1, meta, PropStep(c, st, props[i], meta).value);
    }
  }

  /** `fill_content` on a list group appends exactly one object and keeps the
      elements already there. */
  lemma ListGroupGainsOne(c: Ctx, shape: seq<PropMap>, nodePath: string, xs: seq<Json>, meta: Json)
    requires FillContentSpec(c, shape, nodePath, JArr(xs), meta).Ok?
    ensures var r := FillContentSpec(c, shape, nodePath, JArr(xs), meta).value;
            r.JArr? && |r.items| == |xs| + 1 && r.items[..|xs|] == xs && r.items[|xs|].JObj?
  {
    FoldKeepsList(c, shape, 0, meta, InitialState(c, nodePath, JArr(xs)));
    var r := FillContentSpec(c, shape, nodePath, JArr(xs), meta).value;
    var st := FoldProps(c, shape, 0, meta, InitialState(c, nodePath, JArr(xs))).value;
    assert r == JArr(xs + [JObj(st.propGroup)]);
  }

  /** Filling a list group once per metadata element adds one object per element. */
  lemma {:induction false} FillEachCount(c: Ctx, shape: seq<PropMap>, nodePath: string, group: Json, metaSub: Json, k: nat)
    requires metaSub.JArr? && k <= |metaSub.items| && group.JArr?
    requires FillEach(c, shape, nodePath, group, metaSub, k).Ok?
    ensures var r := FillEach(c, shape, nodePath, group, metaSub, k).value;
            r.JArr? && |r.items| == |group.items| + |metaSub.items| - k &&
            r.items[..|group.items|] == group.items &&
            forall j :: |group.items| <= j < |r.items| ==> r.items[j].JObj?
    decreases |metaSub.items| - k
  {
    if k < |metaSub.items| {
      ListGroupGainsOne(c, shape, nodePath, group.items, metaSub.items[k]);
      var g := FillContentSpec(c, shape, nodePath, group, metaSub.items[k]).value;
      FillEachCount(c, shape, nodePath, g, metaSub, k + 1);
      var r := FillEach(c, shape, nodePath, g, metaSub, k + 1).value;
      assert r.items[..|group.items|] == r.items[..|g.items|][..|group.items|];
    }
  }

  /** A list-valued sub-node whose metadata is a list of n elements is registered
      as a list of n objects, one per element. */
  lemma ListNodeOnePerElement(c: Ctx, st: FillState, p: PropMap, meta: Json, propNode: string, elems: seq<Json>)
    requires st.group.JObj? && meta.JObj?
    requires Get(c.shapes, propNode).Some? && GetValue("path", p, false).Some? && IsList(p) == Ok(true)
    requires Get(meta.fields, ConvertPathToNamespace(GetValue("path", p, false).value, true, NonEmpty(c.schemaName))) == Some(JArr(elems))
    requires NodeStep(c, st, p, meta, propNode).Ok?
    ensures var key := ConvertPathToNamespace(GetValue("path", p, false).value, true, NonEmpty(c.schemaName));
            var g := Get(NodeStep(c, st, p, meta, propNode).value.group.fields, key);
            g.Some? && g.value.JArr? && |g.value.items| == |elems| &&
            forall j :: 0 <= j < |elems| ==> g.value.items[j].JObj?
  {
    var key := ConvertPathToNamespace(GetValue("path", p, false).value, true, NonEmpty(c.schemaName));
    assert In(key, meta) == Ok(true);
    assert Index(meta, key) == Ok(JArr(elems));
    FillEachCount(c, Get(c.shapes, propNode).value, propNode, JArr([]), JArr(elems), 0);
  }

  /** A sub-node of a group that is itself a list cannot be registered: Python
      raises a TypeError when indexing the list with the node's name. */
  lemma NestedUnderListFails(c: Ctx, st: FillState, p: PropMap, meta: Json, propNode: string)
    requires st.group.JArr? && meta.JObj?
    requires Get(c.shapes, propNode).Some? && GetValue("path", p, false).Some? && IsList(p).Ok?
    requires ConvertPathToNamespace(GetValue("path", p, false).value, true, NonEmpty(c.schemaName)) in Keys(meta.fields)
    ensures NodeStep(c, st, p, meta, propNode).Err? && NodeStep(c, st, p, meta, propNode).error.TypeError?
  {
  }

  /** A single-valued literal found in the metadata is registered (under its
      lower-cased compacted path) as a value typed with its compacted datatype,
      which also becomes the current `data_type`. */
  lemma SingletonCopied(c: Ctx, st: FillState, p: PropMap, meta: Json, propType: string, v: Json)
    requires IsList(p) == Ok(false) && GetValue("path", p, false).Some? && meta.JObj?
    requires Get(meta.fields, ReplaceNamespace(GetValue("path", p, false).value, c.prefixes)) == Some(v) && v != JNull
    ensures var path := ReplaceNamespace(GetValue("path", p, false).value, c.prefixes);
            var dt := ReplaceNamespace(propType, c.prefixes);
            LiteralStep(c, st, p, meta, propType) == Store(st.(dataType := Some(dt)), Lower(path), Typed(dt, v))
  {
  }

  /** A list literal found in the metadata is registered as a copy of its elements;
      `data_type` is left as it was. */
  lemma ListCopied(c: Ctx, st: FillState, p: PropMap, meta: Json, propType: string, xs: seq<Json>)
    requires IsList(p) == Ok(true) && GetValue("path", p, false).Some? && meta.JObj?
    requires Get(meta.fields, ReplaceNamespace(GetValue("path", p, false).value, c.prefixes)) == Some(JArr(xs))
    ensures var path := ReplaceNamespace(GetValue("path", p, false).value, c.prefixes);
            LiteralStep(c, st, p, meta, propType) == Store(st, Lower(path), JArr(xs))
  {
  }

  /** A missing optional literal is skipped: nothing is registered. */
  lemma MissingOptionalSkipped(c: Ctx, st: FillState, p: PropMap, meta: Json, propType: string)
    requires IsList(p).Ok? && IsRequired(p) == Ok(false) && GetValue("path", p, false).Some? && meta.JObj?
    requires Get(meta.fields, ReplaceNamespace(GetValue("path", p, false).value, c.prefixes)).None?
    ensures var r := LiteralStep(c, st, p, meta, propType);
            r.Ok? && r.value.group == st.group && r.value.propGroup == st.propGroup
  {
  }

  /** A missing required single-valued literal receives the zero of its datatype,
      or raises KeyError when the datatype is not in the table. */
  lemma MissingRequiredSingleton(c: Ctx, st: FillState, p: PropMap, meta: Json, propType: string)
    requires IsList(p) == Ok(false) && IsRequired(p) == Ok(true) && GetValue("path", p, false).Some? && meta.JObj?
    requires Get(meta.fields, ReplaceNamespace(GetValue("path", p, false).value, c.prefixes)).None?
    ensures var path := ReplaceNamespace(GetValue("path", p, false).value, c.prefixes);
            var dt := ReplaceNamespace(propType, c.prefixes);
            LiteralStep(c, st, p, meta, propType) ==
              match DataTypeEntry(dt)
              case None => Err(KeyError(dt))
              case Some(e) => Store(st.(dataType := Some(dt)), Lower(path), Typed(dt, ZeroOf(e.kind)))
  {
    var dt := ReplaceNamespace(propType, c.prefixes);
    if DataTypeEntry(dt).Some? {
      DefaultIsZero(dt);
    }
  }

  /** A missing required list literal reads the `data_type` left by an earlier
      single-valued literal: with none, Python raises UnboundLocalError; otherwise
      the list holds that earlier datatype's default. */
  lemma MissingRequiredListStale(c: Ctx, st: FillState, p: PropMap, meta: Json, propType: string)
    requires IsList(p) == Ok(true) && IsRequired(p) == Ok(true) && GetValue("path", p, false).Some? && meta.JObj?
    requires Get(meta.fields, ReplaceNamespace(GetValue("path", p, false).value, c.prefixes)).None?
    ensures st.dataType.None? ==> LiteralStep(c, st, p, meta, propType) == Err(UnboundLocalError("data_type"))
    ensures var path := ReplaceNamespace(GetValue("path", p, false).value, c.prefixes);
            st.dataType.Some? && DataTypeEntry(st.dataType.value).Some? ==>
              LiteralStep(c, st, p, meta, propType) ==
                Store(st, Lower(path), JArr([ZeroOf(DataTypeEntry(st.dataType.value).value.kind)]))
  {
    if st.dataType.Some? && DataTypeEntry(st.dataType.value).Some? {
      DefaultIsZero(st.dataType.value);
    }
  }

  /** A property with neither a node nor a datatype is skipped. */
  lemma UntypedSkipped(c: Ctx, st: FillState, p: PropMap, meta: Json)
    requires GetValue("node", p, false).None? && GetValue("datatype", p, false).None?
    ensures PropStep(c, st, p, meta) == Ok(st)
  {
  }

  // ------------------------------------------- what a sub-node step stores

  /** A sub-node of a dict group: when the metadata lacks its key the state is
      unchanged; when it holds it, the group gains at that key the sub-group
      filled from that entry (once, or once per element of a list), and every
      other key, the per-element object and `data_type` keep their values. */
  lemma NodeStepStores(c: Ctx, st: FillState, p: PropMap, meta: Json, propNode: string, sub: seq<PropMap>, rawPath: string)
    requires meta.JObj? && st.group.JObj?
    requires Get(c.shapes, propNode) == Some(sub) && GetValue("path", p, false) == Some(rawPath)
    ensures var key := ConvertPathToNamespace(rawPath, true, NonEmpty(c.schemaName));
            key !in Keys(meta.fields) && IsList(p).Ok? ==> NodeStep(c, st, p, meta, propNode) == Ok(st)
    ensures var key := ConvertPathToNamespace(rawPath, true, NonEmpty(c.schemaName));
            var r := NodeStep(c, st, p, meta, propNode);
            key in Keys(meta.fields) && r.Ok? ==>
              IsList(p).Ok? &&
              var group := NewGroup(IsList(p).value, propNode, NonEmpty(c.schemaName));
              var filled := FillSub(c, sub, propNode, group, Get(meta.fields, key).value);
              filled.Ok? && r.value.group.JObj? && Get(r.value.group.fields, key) == Some(filled.value) &&
              (forall k :: k != key ==> Get(r.value.group.fields, k) == Get(st.group.fields, k)) &&
              r.value.propGroup == st.propGroup && r.value.dataType == st.dataType
  {
  }

  /** A property step on a dict group keeps it a dict and never moves or
      removes one of its keys. */
  lemma PropStepKeepsKeys(c: Ctx, st: FillState, p: PropMap, meta: Json)
    requires st.group.JObj? && PropStep(c, st, p, meta).Ok?
    ensures var g := PropStep(c, st, p, meta).value.group;
            g.JObj? && |g.fields| >= |st.group.fields| && Keys(g.fields)[..|st.group.fields|] == Keys(st.group.fields)
  {
    var propNode := GetValue("node", p, false);
    if propNode.Some? && propNode.value != "" {
      var r := NodeStep(c, st, p, meta, propNode.value);
      if r.value != st {
        var key := ConvertPathToNamespace(GetValue("path", p, false).value, true, NonEmpty(c.schemaName));
        var filled :| r.value.group == JObj(Put(st.group.fields, key, filled));
        PutKeepsPrefix(st.group.fields, key, filled);
      }
    } else {
      var propType := GetValue("datatype", p, false);
      if propType.Some? && propType.value != "" {
        LiteralStepKeepsKeys(c, st, p, meta, propType.value);
      }
    }
  }

  /** A literal step on a dict group keeps it a dict, with its keys in place. */
  lemma LiteralStepKeepsKeys(c: Ctx, st: FillState, p: PropMap, meta: Json, propType: string)
    requires st.group.JObj? && LiteralStep(c, st, p, meta, propType).Ok?
    ensures var g := LiteralStep(c, st, p, meta, propType).value.group;
            g.JObj? && |g.fields| >= |st.group.fields| && Keys(g.fields)[..|st.group.fields|] == Keys(st.group.fields)
  {
    var isList := IsList(p).value;
    var dataType := if isList then st.dataType else Some(ReplaceNamespace(propType, c.prefixes));
    var st1 := st.(dataType := dataType);
    var path := ReplaceNamespace(GetValue("path", p, false).value, c.prefixes);
    var data := DataFromMetadata(path, meta).value;
    var r := LiteralStep(c, st, p, meta, propType);
    assert r == Ok(st1) || exists v :: r == Store(st1, Lower(path), v) by {
      if data != JNull {
        if isList {
          assert r == Store(st1, Lower(path), JArr(Iter(data).value));
        } else {
          assert r == Store(st1, Lower(path), Typed(dataType.value, data));
        }
      } else if IsRequired(p).value {
        var v := DefaultFor(dataType).value;
        if isList {
          assert r == Store(st1, Lower(path), JArr([v]));
        } else {
          assert r == Store(st1, Lower(path), Typed(dataType.value, v));
        }
      }
    }
    if r != Ok(st1) {
      var v :| r == Store(st1, Lower(path), v);
      PutKeepsPrefix(st.group.fields, Lower(path), v);
    }
  }

  /** `fill_content`'s property loop keeps a dict group a dict, with its keys in place. */
  lemma {:induction false} FoldKeepsKeys(c: Ctx, props: seq<PropMap>, i: nat, meta: Json, st: FillState)
    requires i <= |props| && st.group.JObj?
    requires FoldProps(c, props, i, meta, st).Ok?
    ensures var g := FoldProps(c, props, i, meta, st).value.group;
            g.JObj? && |g.fields| >= |st.group.fields| && Keys(g.fields)[..|st.group.fields|] == Keys(st.group.fields)
    decreases |props| - i
  {
    if i < |props| {
      var next := PropStep(c, st, props[i], meta).value;
      PropStepKeepsKeys(c, st, props[i], meta);
      FoldKeepsKeys(c, props, i + 1, meta, next);
      var g := FoldProps(c, props, i + 1, meta, next).value.group;
      assert Keys(g.fields)[..|st.group.fields|] == Keys(g.fields)[..|next.group.fields|][..|st.group.fields|];
    }
  }

  /** A single-valued sub-group comes out of `fill_content` as a dict whose first
      key is `@type`. */
  lemma FilledDictTyped(c: Ctx, shape: seq<PropMap>, nodePath: string, namespace: Option<string>, meta: Json)
    requires FillContentSpec(c, shape, nodePath, NewGroup(false, nodePath, namespace), meta).Ok?
    ensures var g := FillContentSpec(c, shape, nodePath, NewGroup(false, nodePath, namespace), meta).value;
            g.JObj? && |g.fields| >= 1 && g.fields[0].0 == "@type"
  {
    var st0 := InitialState(c, nodePath, NewGroup(false, nodePath, namespace));
    FoldKeepsKeys(c, shape, 0, meta, st0);
    var g := FoldProps(c, shape, 0, meta, st0).value.group;
    assert Keys(st0.group.fields) == ["@type"];
    assert Keys(g.fields)[0] == "@type";
  }

  // ------------------------------------------------ what fill_properties keeps

  /** Registering groups never moves or removes a key already in the claim. */
  lemma {:induction false} FoldRootKeepsKeys(shacls: Shacls, meta: Json, ns: string, name: string, g: ShaclGraph,
                                            props: seq<PropMap>, i: nat, json: Dict<Json>)
    requires i <= |props|
    requires FoldRoot(shacls, meta, ns, name, g, props, i, json).Ok?
    ensures var r := FoldRoot(shacls, meta, ns, name, g, props, i, json).value;
            |r| >= |json| && Keys(r)[..|json|] == Keys(json)
    decreases |props| - i
  {
    if i < |props| {
      var next := RootStep(shacls, meta, ns, name, g, props[i], json).value;
      RootStepKeepsKeys(shacls, meta, ns, name, g, props[i], json);
      FoldRootKeepsKeys(shacls, meta, ns, name, g, props, i + 1, next);
      var r := FoldRoot(shacls, meta, ns, name, g, props, i + 1, next).value;
      assert Keys(r)[..|json|] == Keys(r)[..|next|][..|json|];
    }
  }

  lemma RootStepKeepsKeys(shacls: Shacls, meta: Json, ns: string, name: string, g: ShaclGraph, p: PropMap, json: Dict<Json>)
    requires RootStep(shacls, meta, ns, name, g, p, json).Ok?
    ensures var r := RootStep(shacls, meta, ns, name, g, p, json).value;
            |r| >= |json| && Keys(r)[..|json|] == Keys(json)
  {
    var nodePath := GetValue("node", p, false);
    if nodePath.Some? && nodePath.value != "" {
      if Get(g.shapes, nodePath.value).None? {
        ForeignStepKeepsKeys(shacls, meta, ns, nodePath.value, json);
      } else {
        var node := Get(g.shapes, nodePath.value).value;
        LocalNodeStepPuts(meta, ns, name, g, p, json, nodePath.value, node);
        var r := LocalNodeStep(meta, ns, name, g, p, json, nodePath.value, node).value;
        if r != json {
          var key := ConvertPathToNamespace(GetValue("path", p, false).value, true, NonEmpty(ns));
          var filled :| r == Put(json, key, filled);
          PutKeepsPrefix(json, key, filled);
        }
      }
    }
  }

  /** A local node either leaves the claim as it is or registers one group under its path. */
  lemma LocalNodeStepPuts(meta: Json, ns: string, name: string, g: ShaclGraph, p: PropMap, json: Dict<Json>,
                          nodePath: string, node: seq<PropMap>)
    requires LocalNodeStep(meta, ns, name, g, p, json, nodePath, node).Ok?
    ensures GetValue("path", p, false).Some?
    ensures var r := LocalNodeStep(meta, ns, name, g, p, json, nodePath, node).value;
            var key := ConvertPathToNamespace(GetValue("path", p, false).value, true, NonEmpty(ns));
            r == json || exists filled :: r == Put(json, key, filled)
  {
    var key := ConvertPathToNamespace(GetValue("path", p, false).value, true, NonEmpty(ns));
    if In(key, meta) == Ok(true) {
      var group := NewGroup(IsList(p).value, nodePath, NonEmpty(Lower(name)));
      var filled := FillContentSpec(Ctx(g.shapes, g.prefixes, ns), node, nodePath, group, Index(meta, key).value).value;
      assert LocalNodeStep(meta, ns, name, g, p, json, nodePath, node).value == Put(json, key, filled);
    }
  }

  lemma ForeignStepKeepsKeys(shacls: Shacls, meta: Json, ns: string, nodePath: string, json: Dict<Json>)
    requires ForeignStep(shacls, meta, ns, nodePath, json).Ok?
    ensures var r := ForeignStep(shacls, meta, ns, nodePath, json).value;
            |r| >= |json| && Keys(r)[..|json|] == Keys(json)
  {
    forall k: string, v: Json
      ensures |Put(json, k, v)| >= |json| && Keys(Put(json, k, v))[..|json|] == Keys(json)
    {
      PutKeepsPrefix(json, k, v);
    }
  }

  lemma FillPropertiesKeepsKeys(shacls: Shacls, meta: Json, ns: string, name: string, json: Dict<Json>)
    requires FillPropertiesSpec(shacls, meta, ns, name, json).Ok?
    ensures var r := FillPropertiesSpec(shacls, meta, ns, name, json).value;
            |r| >= |json| && Keys(r)[..|json|] == Keys(json)
  {
    var g := shacls[ns];
    var shape := GetValue(Lower(name + "shape"), g.shapes, true);
    if shape.Some? {
      FoldRootKeepsKeys(shacls, meta, ns, name, g, shape.value, 0, json);
    }
  }

  /** A node name built with a namespace is that namespace, lower-cased, or has a
      `:` right after it. */
  lemma NodeNameWithNamespace(path: string, ns: string)
    requires ns != ""
    ensures var r := ConvertPathToNamespace(path, true, Some(ns));
            r == Lower(ns) || (|r| > |ns| && r[|ns|] == ':')
  {
    var parts := Split(path, "/");
    var last := if |parts| >= 2 then parts[|parts| - 2..] else parts;
    var stripped := last[..|last| - 1] + [Replace(last[|last| - 1], "Shape", "")];
    var named := [ns] + stripped[1..];
    if |parts| >= 2 {
      assert |named| == 2;
      var joined := Join(":", named);
      assert named[0] == ns && named[1..] == [named[1]];
      assert Join(":", named[1..]) == named[1];
      assert joined == ns + ":" + named[1];
      LowerChars(joined);
      assert joined[|ns|] == ':';
    } else {
      assert named == [ns];
    }
  }

  /** A key without `:` that is not the lower-cased namespace is never written by
      `fill_properties`: the header of a claim keeps its values. */
  lemma {:induction false} FoldRootKeepsHeader(shacls: Shacls, meta: Json, ns: string, name: string, g: ShaclGraph,
                                              props: seq<PropMap>, i: nat, json: Dict<Json>, k: string)
    requires i <= |props| && ns != "" && k != Lower(ns) && ':' !in k
    requires FoldRoot(shacls, meta, ns, name, g, props, i, json).Ok?
    ensures Get(FoldRoot(shacls, meta, ns, name, g, props, i, json).value, k) == Get(json, k)
    decreases |props| - i
  {
    if i < |props| {
      var next := RootStep(shacls, meta, ns, name, g, props[i], json).value;
      RootStepKeepsHeader(shacls, meta, ns, name, g, props[i], json, k);
      FoldRootKeepsHeader(shacls, meta, ns, name, g, props, i + 1, next, k);
    }
  }

  lemma RootStepKeepsHeader(shacls: Shacls, meta: Json, ns: string, name: string, g: ShaclGraph, p: PropMap,
                            json: Dict<Json>, k: string)
    requires ns != "" && k != Lower(ns) && ':' !in k
    requires RootStep(shacls, meta, ns, name, g, p, json).Ok?
    ensures Get(RootStep(shacls, meta, ns, name, g, p, json).value, k) == Get(json, k)
  {
    var nodePath := GetValue("node", p, false);
    if nodePath.Some? && nodePath.value != "" {
      if Get(g.shapes, nodePath.value).None? {
        ForeignStepKeepsHeader(shacls, meta, ns, nodePath.value, json, k);
      } else {
        var node := Get(g.shapes, nodePath.value).value;
        LocalNodeStepPuts(meta, ns, name, g, p, json, nodePath.value, node);
        var r := LocalNodeStep(meta, ns, name, g, p, json, nodePath.value, node).value;
        var rawPath := GetValue("path", p, false).value;
        var key := ConvertPathToNamespace(rawPath, true, NonEmpty(ns));
        NodeNameWithNamespace(rawPath, ns);
        if r != json {
          var filled :| r == Put(json, key, filled);
          assert key != k;
        }
      }
    }
  }

  lemma ForeignStepKeepsHeader(shacls: Shacls, meta: Json, ns: string, nodePath: string, json: Dict<Json>, k: string)
    requires ns != "" && k != Lower(ns) && ':' !in k
    requires ForeignStep(shacls, meta, ns, nodePath, json).Ok?
    ensures Get(ForeignStep(shacls, meta, ns, nodePath, json).value, k) == Get(json, k)
  {
    var groupName := ConvertPathToNamespace(nodePath, true, NonEmpty(ns));
    NodeNameWithNamespace(nodePath, ns);
    assert groupName != k;
  }

  // ------------------------------------------------ what a node step stores

  /** A node of the schema's ontology: when the metadata lacks its key the claim
      is unchanged; when it holds it, the claim gains, at that key, the group
      `fill_content` fills from that entry, and no other key changes. */
  lemma LocalNodeStepStores(meta: Json, ns: string, name: string, g: ShaclGraph, p: PropMap, json: Dict<Json>,
                            nodePath: string, node: seq<PropMap>, rawPath: string)
    requires meta.JObj? && GetValue("path", p, false) == Some(rawPath)
    ensures var key := ConvertPathToNamespace(rawPath, true, NonEmpty(ns));
            key !in Keys(meta.fields) ==> LocalNodeStep(meta, ns, name, g, p, json, nodePath, node) == Ok(json)
    ensures var key := ConvertPathToNamespace(rawPath, true, NonEmpty(ns));
            var r := LocalNodeStep(meta, ns, name, g, p, json, nodePath, node);
            key in Keys(meta.fields) && r.Ok? ==>
              IsList(p).Ok? &&
              var group := NewGroup(IsList(p).value, nodePath, NonEmpty(Lower(name)));
              var filled := FillContentSpec(Ctx(g.shapes, g.prefixes, ns), node, nodePath, group, Get(meta.fields, key).value);
              filled.Ok? && Get(r.value, key) == Some(filled.value) &&
              forall k :: k != key ==> Get(r.value, k) == Get(json, k)
  {
  }

  /** A property of a foreign node shape whose node is a shape of that ontology:
      when the sub-metadata lacks its key the group is unchanged; when it holds
      it, the group gains, at that key, the sub-group `fill_content` fills from
      that entry, and no other key changes. */
  lemma ForeignPropertyStores(c: Ctx, q: PropMap, metaSub: Json, groupDict: Dict<Json>,
                              nodeAdd: string, node: seq<PropMap>, rawPath: string)
    requires metaSub.JObj?
    requires GetValue("node", q, false) == Some(nodeAdd) && Get(c.shapes, nodeAdd) == Some(node)
    requires GetValue("path", q, false) == Some(rawPath)
    ensures var key := ConvertPathToNamespace(rawPath, true, NonEmpty(c.schemaName));
            key !in Keys(metaSub.fields) ==> ForeignProperty(c, q, metaSub, groupDict) == Ok(groupDict)
    ensures var key := ConvertPathToNamespace(rawPath, true, NonEmpty(c.schemaName));
            var r := ForeignProperty(c, q, metaSub, groupDict);
            key in Keys(metaSub.fields) && r.Ok? ==>
              IsList(q).Ok? &&
              var group := NewGroup(IsList(q).value, nodeAdd, NonEmpty(c.schemaName));
              var filled := FillContentSpec(c, node, nodeAdd, group, Get(metaSub.fields, key).value);
              filled.Ok? && Get(r.value, key) == Some(filled.value) &&
              forall k :: k != key ==> Get(r.value, k) == Get(groupDict, k)
  {
  }

  /** A property of a foreign node shape without a node, or whose node that
      ontology does not define, is skipped. */
  lemma ForeignPropertySkips(c: Ctx, q: PropMap, metaSub: Json, groupDict: Dict<Json>)
    requires GetValue("node", q, false).None? || Get(c.shapes, GetValue("node", q, false).value).None?
    ensures ForeignProperty(c, q, metaSub, groupDict) == Ok(groupDict)
  {
  }

  /** A foreign property never moves a key of the group, and leaves alone every
      key without `:` other than the lower-cased namespace. */
  lemma ForeignPropertyKeeps(c: Ctx, q: PropMap, metaSub: Json, groupDict: Dict<Json>, k: string)
    requires ForeignProperty(c, q, metaSub, groupDict).Ok?
    ensures var r := ForeignProperty(c, q, metaSub, groupDict).value;
            |r| >= |groupDict| && Keys(r)[..|groupDict|] == Keys(groupDict)
    ensures c.schemaName != "" && k != Lower(c.schemaName) && ':' !in k ==>
              Get(ForeignProperty(c, q, metaSub, groupDict).value, k) == Get(groupDict, k)
  {
    var r := ForeignProperty(c, q, metaSub, groupDict).value;
    if r != groupDict {
      var rawPath := GetValue("path", q, false).value;
      var key := ConvertPathToNamespace(rawPath, true, NonEmpty(c.schemaName));
      var filled :| r == Put(groupDict, key, filled);
      PutKeepsPrefix(groupDict, key, filled);
      if c.schemaName != "" {
        NodeNameWithNamespace(rawPath, c.schemaName);
      }
    }
  }

  /** The loop over a foreign node shape's properties keeps the group's keys in
      place, and the values of keys no property can write. */
  lemma {:induction false} FoldForeignKeeps(c: Ctx, props: seq<PropMap>, i: nat, metaSub: Json, d: Dict<Json>, k: string)
    requires i <= |props|
    requires FoldForeign(c, props, i, metaSub, d).Ok?
    ensures var r := FoldForeign(c, props, i, metaSub, d).value;
            |r| >= |d| && Keys(r)[..|d|] == Keys(d)
    ensures c.schemaName != "" && k != Lower(c.schemaName) && ':' !in k ==>
              Get(FoldForeign(c, props, i, metaSub, d).value, k) == Get(d, k)
    decreases |props| - i
  {
    if i < |props| {
      var next := ForeignProperty(c, props[i], metaSub, d).value;
      ForeignPropertyKeeps(c, props[i], metaSub, d, k);
      FoldForeignKeeps(c, props, i + 1, metaSub, next, k);
      var r := FoldForeign(c, props, i + 1, metaSub, next).value;
      assert Keys(r)[..|d|] == Keys(r)[..|next|][..|d|];
    }
  }

  /** A node of another ontology that the metadata holds is registered under its
      group name as an object filled by the loop over that ontology's shape; the
      object starts with `@type` set to the node's prefixed name (whenever the
      prefix cannot be confused with `@type`), and no other key of the claim
      changes. When the prefix names no loaded ontology, the ontology lacks the
      node or the metadata lacks the group, the claim is unchanged. */
  lemma ForeignStepStores(shacls: Shacls, meta: Json, ns: string, nodePath: string, json: Dict<Json>)
    requires meta.JObj? && GetNamespace(ConvertPathToNamespace(nodePath, false, None)).Ok?
    ensures var fns := GetNamespace(ConvertPathToNamespace(nodePath, false, None)).value.0;
            var groupName := ConvertPathToNamespace(nodePath, true, NonEmpty(ns));
            fns !in shacls || Get(shacls[fns].shapes, nodePath).None? || groupName !in Keys(meta.fields) ==>
              ForeignStep(shacls, meta, ns, nodePath, json) == Ok(json)
    ensures var fns := GetNamespace(ConvertPathToNamespace(nodePath, false, None)).value.0;
            var groupName := ConvertPathToNamespace(nodePath, true, NonEmpty(ns));
            var typeName := ConvertPathToNamespace(nodePath, false, None);
            var r := ForeignStep(shacls, meta, ns, nodePath, json);
            fns in shacls && Get(shacls[fns].shapes, nodePath).Some? && groupName in Keys(meta.fields) && r.Ok? ==>
              var fg := shacls[fns];
              var d := FoldForeign(Ctx(fg.shapes, fg.prefixes, fns), Get(fg.shapes, nodePath).value, 0,
                                   Get(meta.fields, groupName).value, [("@type", JStr(typeName))]);
              d.Ok? && Get(r.value, groupName) == Some(JObj(d.value)) &&
              |d.value| >= 1 && d.value[0].0 == "@type" &&
              (fns != "" && Lower(fns) != "@type" ==> d.value[0].1 == JStr(typeName)) &&
              forall k :: k != groupName ==> Get(r.value, k) == Get(json, k)
  {
    var fns := GetNamespace(ConvertPathToNamespace(nodePath, false, None)).value.0;
    var groupName := ConvertPathToNamespace(nodePath, true, NonEmpty(ns));
    var typeName := ConvertPathToNamespace(nodePath, false, None);
    if fns in shacls && Get(shacls[fns].shapes, nodePath).Some? && groupName in Keys(meta.fields)
       && ForeignStep(shacls, meta, ns, nodePath, json).Ok? {
      var fg := shacls[fns];
      var d0 := [("@type", JStr(typeName))];
      var c := Ctx(fg.shapes, fg.prefixes, fns);
      var d := FoldForeign(c, Get(fg.shapes, nodePath).value, 0, Get(meta.fields, groupName).value, d0);
      assert d.Ok?;
      FoldForeignKeeps(c, Get(fg.shapes, nodePath).value, 0, Get(meta.fields, groupName).value, d0, "@type");
      assert Keys(d0) == ["@type"];
      assert Keys(d.value)[0] == "@type";
      assert d.value[0].0 == "@type";
      assert Get(d.value, "@type") == Some(d.value[0].1);
    }
  }

  /** The header's three keys are left alone by `fill_properties`' loop. */
  lemma FoldRootKeepsHeaderKeys(shacls: Shacls, meta: Json, ns: string, name: string, g: ShaclGraph,
                                props: seq<PropMap>, json: Dict<Json>)
    requires ns != "" && Lower(ns) != "@context" && Lower(ns) != "@id" && Lower(ns) != "@type"
    requires FoldRoot(shacls, meta, ns, name, g, props, 0, json).Ok?
    ensures var r := FoldRoot(shacls, meta, ns, name, g, props, 0, json).value;
            Get(r, "@context") == Get(json, "@context") && Get(r, "@id") == Get(json, "@id")
            && Get(r, "@type") == Get(json, "@type")
  {
    assert ':' !in "@context" && ':' !in "@id" && ':' !in "@type";
    FoldRootKeepsHeader(shacls, meta, ns, name, g, props, 0, json, "@context");
    FoldRootKeepsHeader(shacls, meta, ns, name, g, props, 0, json, "@id");
    FoldRootKeepsHeader(shacls, meta, ns, name, g, props, 0, json, "@type");
  }

  /** The header holds the prefixes, the DID and the asset type. */
  lemma ClaimHeaderGets(g: ShaclGraph, ns: string, name: string, did: string)
    ensures var h := ClaimHeader(g, ns, name, did);
            Get(h, "@context") == Some(JObj(StrObj(g.prefixes))) &&
            Get(h, "@id") == Some(JStr(ClaimIdPrefix + ns + ":" + did)) &&
            Get(h, "@type") == Some(JStr(ns + ":" + name))
  {
  }

  /** A claim for a non-empty namespace keeps the header values it started with. */
  lemma ClaimHeaderKept(ns: string, name: string, shacls: Shacls, meta: Json, did: string)
    requires ns in shacls && ns != "" && Lower(ns) != "@context" && Lower(ns) != "@id" && Lower(ns) != "@type"
    requires FillClaimDataSpec(ns, name, shacls, meta, did).Ok?
    ensures var r := FillClaimDataSpec(ns, name, shacls, meta, did).value;
            Get(r, "@context") == Some(JObj(StrObj(shacls[ns].prefixes))) &&
            Get(r, "@id") == Some(JStr(ClaimIdPrefix + ns + ":" + did)) &&
            Get(r, "@type") == Some(JStr(ns + ":" + name))
  {
    var g := shacls[ns];
    var header := ClaimHeader(g, ns, name, did);
    ClaimHeaderGets(g, ns, name, did);
    var shape := GetValue(Lower(name + "shape"), g.shapes, true);
    if shape.Some? {
      FoldRootKeepsHeaderKeys(shacls, meta, ns, name, g, shape.value, header);
    }
  }
}

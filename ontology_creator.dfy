/**
 * The SHACL generator of the ontology creator (ontologie_creator/main.py).
 *
 * The attribute table read from the spreadsheet is a nested dict
 * category -> sub-category -> attribute name -> attribute row; the
 * `categorie_data` entry of a category holds its contributor, description and
 * version texts instead of rows. The frequency texts of the rows are turned
 * into cardinality bounds in place, and `create_shacl` adds one shape per
 * category and sub-category to an rdflib graph. The model keeps the graph
 * as a list of triples in the order they are added (a triple added twice,
 * which rdflib would merge, stays twice); fresh blank nodes come from a
 * counter.
 */
module OntologyCreator {
  import opened Wrappers
  import opened ODict
  import opened PyStr
  import opened Vocab

  // ------------------------------------------------------------ name checks

  /** The texts a category, sub-category or attribute name must not contain. */
  const SpecialChars: seq<string> := [" ", "/", "..."]

  /** Some text of `pats[i..]` occurs in `s`. */
  function AnyContained(s: string, pats: seq<string>, i: nat): (r: bool)
    requires i <= |pats|
    ensures r <==> exists j :: i <= j < |pats| && Contains(s, pats[j])
    decreases |pats| - i
  {
    if i == |pats| then false
    else Contains(s, pats[i]) || AnyContained(s, pats, i + 1)
  }

  /** `check_special_chars(s)`: the name holds a blank, a slash or an ellipsis. */
  function CheckSpecialChars(s: string): (r: bool)
    ensures r <==> (' ' in s || '/' in s || Contains(s, "..."))
  {
    ContainsCharIff(s, ' ');
    ContainsCharIff(s, '/');
    assert SpecialChars[0] == [' '] && SpecialChars[1] == ['/'] && SpecialChars[2] == "...";
    AnyContained(s, SpecialChars, 0)
  }

  // ------------------------------------------------------------- camel case

  /** The words after the first, each capitalised, run together. */
  function CapitalizedWords(ws: seq<string>): string
  {
    if |ws| == 0 then "" else Capitalize(ws[0]) + CapitalizedWords(ws[1..])
  }

  lemma CapitalizedWordsStep(r: string, ws: seq<string>, i: nat)
    requires i < |ws|
    ensures r + CapitalizedWords(ws[i..]) == (r + Capitalize(ws[i])) + CapitalizedWords(ws[i + 1..])
  {
    assert ws[i..][1..] == ws[i + 1..];
    assert CapitalizedWords(ws[i..]) == Capitalize(ws[i]) + CapitalizedWords(ws[i + 1..]);
  }

  /** What `to_camel_case(s)` returns. */
  function CamelCase(s: string): string
  {
    var words := SplitWs(s);
    if |words| == 0 then s else Lower(words[0]) + CapitalizedWords(words[1..])
  }

  /** `to_camel_case(s)`: the first word lowered, then the loop appending the others capitalised. */
  method ToCamelCase(s: string) returns (r: string)
    ensures r == CamelCase(s)
  {
    var words := SplitWs(s);
    if |words| == 0 {
      return s;
    }
    r := Lower(words[0]);
    for i := 1 to |words|
      invariant r + CapitalizedWords(words[i..]) == CamelCase(s)
    {
      CapitalizedWordsStep(r, words, i);
      r := r + Capitalize(words[i]);
    }
    assert words[|words|..] == [];
  }

  lemma LowerNoSpace(w: string)
    requires NoSpace(w)
    ensures NoSpace(Lower(w))
  {
    LowerChars(w);
  }

  lemma CapitalizeNoSpace(w: string)
    requires NoSpace(w)
    ensures NoSpace(Capitalize(w))
  {
    if |w| > 0 {
      LowerNoSpace(w[1..]);
      assert Capitalize(w) == [UpperChar(w[0])] + Lower(w[1..]);
    }
  }

  lemma {:induction false} CapitalizedWordsNoSpace(ws: seq<string>)
    requires forall k :: 0 <= k < |ws| ==> NoSpace(ws[k])
    ensures NoSpace(CapitalizedWords(ws))
  {
    if |ws| > 0 {
      CapitalizeNoSpace(ws[0]);
      CapitalizedWordsNoSpace(ws[1..]);
    }
  }

  /** A name with at least one word comes out with no whitespace left in it. */
  lemma CamelCaseNoSpace(s: string)
    requires SplitWs(s) != []
    ensures NoSpace(CamelCase(s))
  {
    var words := SplitWs(s);
    SplitWsWords(s);
    LowerNoSpace(words[0]);
    CapitalizedWordsNoSpace(words[1..]);
  }

  /** A name that is all whitespace (or empty) is returned unchanged. */
  lemma CamelCaseNoWords(s: string)
    requires forall i :: 0 <= i < |s| ==> IsSpace(s[i])
    ensures CamelCase(s) == s
  {
    SplitWsAllSpace(s);
  }

  /** A single word is only lowered. */
  lemma CamelCaseOneWord(w: string)
    requires |w| > 0 && NoSpace(w)
    ensures CamelCase(w) == Lower(w)
  {
    SplitWsWord(w);
  }

  /** Two words: the first lowered, the second capitalised, the blank dropped. */
  lemma CamelCaseTwoWords(a: string, b: string)
    requires |a| > 0 && NoSpace(a) && |b| > 0 && NoSpace(b)
    ensures CamelCase(a + " " + b) == Lower(a) + Capitalize(b)
  {
    SplitWsTwoWords(a, b);
    assert SplitWs(a + " " + b)[1..] == [b];
    assert [b][1..] == [];
    assert CapitalizedWords([b]) == Capitalize(b);
  }

  // -------------------------------------------------------- attribute table

  /**
   * One attribute row. The rows read from the spreadsheet have every text
   * field; the rows of the built-in shapes have only a name and a data type.
   * `frequencyMin` and `frequencyMax` are set by the frequency conversion.
   */
  datatype Attrib = Attrib(
    name: string,
    dataType: string,
    description: Option<string>,
    frequency: Option<string>,
    unit: Option<string>,
    example: Option<string>,
    frequencyMin: Option<int>,
    frequencyMax: Option<int>)

  /** A value below the sub-category level: an attribute row, or one of the
      texts of a category's `categorie_data` record. */
  datatype Entry = Row(a: Attrib) | Text(s: string)

  type SubCategory = Dict<Entry>
  type Category = Dict<SubCategory>
  type Attributes = Dict<Category>

  const CategoryDataKey: string := "categorie_data"

  /** `addData`: create the category and sub-category levels when missing and
      store the row under its name, replacing any earlier row of that name. */
  method AddData(category: string, subcategory: string, dataName: string, data: Attrib, attributes: Attributes)
    returns (r: Attributes)
    ensures Get(r, category).Some? && Get(Get(r, category).value, subcategory).Some?
    ensures Get(Get(Get(r, category).value, subcategory).value, dataName) == Some(Row(data))
    ensures forall c :: c != category ==> Get(r, c) == Get(attributes, c)
    ensures Get(attributes, category).Some? ==>
              forall s :: s != subcategory ==> Get(Get(r, category).value, s) == Get(Get(attributes, category).value, s)
    ensures Get(attributes, category).Some? && Get(Get(attributes, category).value, subcategory).Some? ==>
              forall n :: n != dataName ==>
                Get(Get(Get(r, category).value, subcategory).value, n) == Get(Get(Get(attributes, category).value, subcategory).value, n)
    ensures Keys(r) == if category in Keys(attributes) then Keys(attributes) else Keys(attributes) + [category]
  {
    r := attributes;
    PutKeys(attributes, category, []);
    if category !in Keys(r) {
      r := Put(r, category, []);
    }
    var cat := Get(r, category).value;
    if subcategory !in Keys(cat) {
      cat := Put(cat, subcategory, []);
    }
    var sub := Get(cat, subcategory).value;
    sub := Put(sub, dataName, Row(data));
    cat := Put(cat, subcategory, sub);
    PutKeys(r, category, cat);
    r := Put(r, category, cat);
  }

  // ------------------------------------------------------------- frequency

  /** The cardinality bounds a frequency text stands for; any other text is
      logged as unsupported and sets neither bound. */
  function FrequencyBounds(f: string): (Option<int>, Option<int>)
  {
    if f == "1" || f == "1.0" then (Some(1), Some(1))
    else if f == "0-n" then (Some(0), None)
    else if f == "1-n" then (Some(1), None)
    else if f == "0-1" then (Some(0), Some(1))
    else if f == "nan" then (Some(0), None)
    else (None, None)
  }

  /** The conversion of one row: cardinality bounds from the frequency, and a
      unit of 'nan' or '-' blanked. A row without those keys raises KeyError. */
  function ConvertRow(a: Attrib): (r: Result<Attrib>)
    ensures r.Ok? <==> a.frequency.Some? && a.unit.Some?
    ensures r.Ok? ==> r.value.name == a.name && r.value.dataType == a.dataType && r.value.example == a.example
                      && r.value.description == a.description && r.value.frequency == a.frequency
  {
    if a.frequency.None? then Err(KeyError("frequency"))
    else
      var (mn, mx) := FrequencyBounds(a.frequency.value);
      var b := a.(frequencyMin := if mn.Some? then mn else a.frequencyMin,
                  frequencyMax := if mx.Some? then mx else a.frequencyMax);
      if b.unit.None? then Err(KeyError("unit"))
      else if b.unit.value == "nan" || b.unit.value == "-" then Ok(b.(unit := Some("")))
      else Ok(b)
  }

  /** One entry of a sub-category; a text there cannot be indexed by key. */
  function ConvertEntry(e: Entry): (r: Result<Entry>)
    ensures r.Ok? ==> r.value.Row?
  {
    match e
    case Row(a) =>
      var b :- ConvertRow(a);
      Ok(Row(b))
    case Text(_) => Err(TypeError("string indices must be integers"))
  }

  /** The rows of a sub-category from index `i` on, converted in place. */
  function ConvertRowsFrom(d: SubCategory, i: nat): Result<SubCategory>
    requires i <= |d|
    decreases |d| - i
  {
    if i == |d| then Ok(d)
    else
      var e :- ConvertEntry(d[i].1);
      ConvertRowsFrom(d[i := (d[i].0, e)], i + 1)
  }

  /** The innermost loop of the conversion, over the rows of one sub-category. */
  method ConvertRows(d: SubCategory) returns (r: Result<SubCategory>)
    ensures r == ConvertRowsFrom(d, 0)
  {
    var cur := d;
    for i := 0 to |d|
      invariant |cur| == |d|
      invariant ConvertRowsFrom(cur, i) == ConvertRowsFrom(d, 0)
    {
      var e := ConvertEntry(cur[i].1);
      if e.Err? {
        return Err(e.error);
      }
      cur := cur[i := (cur[i].0, e.value)];
    }
    return Ok(cur);
  }

  /** The conversion succeeds iff every entry converts, and then it keeps the
      names and their order and converts each row where it stands. */
  lemma {:induction false} ConvertRowsPointwise(d: SubCategory, i: nat)
    requires i <= |d|
    ensures ConvertRowsFrom(d, i).Ok? <==> forall j :: i <= j < |d| ==> ConvertEntry(d[j].1).Ok?
    ensures ConvertRowsFrom(d, i).Ok? ==>
              var r := ConvertRowsFrom(d, i).value;
              |r| == |d| && r[..i] == d[..i] &&
              forall j :: i <= j < |d| ==> r[j] == (d[j].0, ConvertEntry(d[j].1).value)
    decreases |d| - i
  {
    if i < |d| {
      var e := ConvertEntry(d[i].1);
      if e.Ok? {
        var d' := d[i := (d[i].0, e.value)];
        ConvertRowsPointwise(d', i + 1);
        assert forall j :: i + 1 <= j < |d| ==> d'[j] == d[j];
        if ConvertRowsFrom(d', i + 1).Ok? {
          var r := ConvertRowsFrom(d', i + 1).value;
          assert r[..i + 1][..i] == r[..i];
          assert d'[..i + 1][..i] == d[..i];
        }
      }
    }
  }

  /** The sub-categories of a category from index `i` on, converted in place;
      `categorie_data` is skipped. */
  function ConvertCategoryFrom(c: Category, i: nat): Result<Category>
    requires i <= |c|
    decreases |c| - i
  {
    if i == |c| then Ok(c)
    else if c[i].0 == CategoryDataKey then ConvertCategoryFrom(c, i + 1)
    else
      var rows :- ConvertRowsFrom(c[i].1, 0);
      ConvertCategoryFrom(c[i := (c[i].0, rows)], i + 1)
  }

  /** The middle loop, over the sub-categories of one category. */
  method ConvertCategory(c: Category) returns (r: Result<Category>)
    ensures r == ConvertCategoryFrom(c, 0)
  {
    var cur := c;
    for i := 0 to |c|
      invariant |cur| == |c|
      invariant ConvertCategoryFrom(cur, i) == ConvertCategoryFrom(c, 0)
    {
      if cur[i].0 == CategoryDataKey {
        continue;
      }
      var rows := ConvertRows(cur[i].1);
      if rows.Err? {
        return Err(rows.error);
      }
      cur := cur[i := (cur[i].0, rows.value)];
    }
    return Ok(cur);
  }

  /** A converted category keeps its sub-category names in order, leaves
      `categorie_data` as it was and converts every other sub-category. */
  lemma {:induction false} ConvertCategoryPointwise(c: Category, i: nat)
    requires i <= |c|
    requires ConvertCategoryFrom(c, i).Ok?
    ensures var r := ConvertCategoryFrom(c, i).value;
            |r| == |c| && r[..i] == c[..i] &&
            forall j :: i <= j < |c| ==>
              r[j].0 == c[j].0 &&
              (c[j].0 == CategoryDataKey ==> r[j].1 == c[j].1) &&
              (c[j].0 != CategoryDataKey ==> ConvertRowsFrom(c[j].1, 0) == Ok(r[j].1))
    decreases |c| - i
  {
    if i < |c| {
      var c' := if c[i].0 == CategoryDataKey then c else c[i := (c[i].0, ConvertRowsFrom(c[i].1, 0).value)];
      assert ConvertCategoryFrom(c, i) == ConvertCategoryFrom(c', i + 1);
      ConvertCategoryPointwise(c', i + 1);
      assert forall j :: i + 1 <= j < |c| ==> c'[j] == c[j];
      var r := ConvertCategoryFrom(c', i + 1).value;
      assert r[..i + 1][..i] == r[..i];
      assert c'[..i + 1][..i] == c[..i];
      assert r[i] == r[..i + 1][i] == c'[i];
      forall j | i <= j < |c|
        ensures r[j].0 == c[j].0
        ensures c[j].0 == CategoryDataKey ==> r[j].1 == c[j].1
        ensures c[j].0 != CategoryDataKey ==> ConvertRowsFrom(c[j].1, 0) == Ok(r[j].1)
      {
      }
    }
  }

  /** The whole table from index `i` on. */
  function ConvertAllFrom(attrs: Attributes, i: nat): Result<Attributes>
    requires i <= |attrs|
    decreases |attrs| - i
  {
    if i == |attrs| then Ok(attrs)
    else
      var cat :- ConvertCategoryFrom(attrs[i].1, 0);
      ConvertAllFrom(attrs[i := (attrs[i].0, cat)], i + 1)
  }

  /** The outer loop of the conversion (the name checks there only log). */
  method ConvertAll(attrs: Attributes) returns (r: Result<Attributes>)
    ensures r == ConvertAllFrom(attrs, 0)
  {
    var cur := attrs;
    for i := 0 to |attrs|
      invariant |cur| == |attrs|
      invariant ConvertAllFrom(cur, i) == ConvertAllFrom(attrs, 0)
    {
      var cat := ConvertCategory(cur[i].1);
      if cat.Err? {
        return Err(cat.error);
      }
      cur := cur[i := (cur[i].0, cat.value)];
    }
    return Ok(cur);
  }

  /** The conversion keeps the category names and their order and converts
      each category where it stands. */
  lemma {:induction false} ConvertAllPointwise(attrs: Attributes, i: nat)
    requires i <= |attrs|
    requires ConvertAllFrom(attrs, i).Ok?
    ensures var r := ConvertAllFrom(attrs, i).value;
            |r| == |attrs| && r[..i] == attrs[..i] &&
            forall j :: i <= j < |attrs| ==> r[j].0 == attrs[j].0 && ConvertCategoryFrom(attrs[j].1, 0) == Ok(r[j].1)
    decreases |attrs| - i
  {
    if i < |attrs| {
      var a' := attrs[i := (attrs[i].0, ConvertCategoryFrom(attrs[i].1, 0).value)];
      ConvertAllPointwise(a', i + 1);
      assert forall j :: i + 1 <= j < |attrs| ==> a'[j] == attrs[j];
      var r := ConvertAllFrom(a', i + 1).value;
      assert r[..i + 1][..i] == r[..i];
      assert a'[..i + 1][..i] == attrs[..i];
    }
  }

  // ------------------------------------------------------------- the graph

  datatype Term =
    | Iri(iri: string)
    | Blank(id: nat)
    | Lit(text: string)
    | LangLit(text: string, lang: string)
    | IntLit(n: int)

  /** The predicates the generator writes. `ShIn` is rdflib's `SHACL.in_`,
      whose name the serialiser writes as `sh:in_`. */
  datatype Pred =
    | RdfType | ShProperty | ShPath | ShDatatype | ShNode | ShPattern | ShIn
    | ShMinCount | ShMaxCount | ShOrder | ShName | ShMessage | ShDescription
    | ShTargetClass | SkosExample

  datatype Triple = Triple(s: Term, p: Pred, o: Term)

  /** A graph as the triples in the order they were added. */
  type Graph = seq<Triple>

  const NodeShape: Term := Iri(SH + "NodeShape")

  /** An entry of the data type table: the type IRI or shape name, and an
      optional regular expression and list of allowed values. */
  datatype TypeInfo = TypeInfo(typ: string, pattern: Option<string>, values: Option<seq<string>>)

  function Plain(typ: string): TypeInfo { TypeInfo(typ, None, None) }

  function Enum(values: seq<string>): TypeInfo { TypeInfo(XSD + "string", None, Some(values)) }

  /** The table from a spreadsheet data type to its SHACL type (`dataTypeMap`;
      the source lists 'date' twice with the same entry, kept once here). */
  type TypeTable = Dict<TypeInfo>

  function DataTypeMap(): TypeTable
  {
    [
     ("string", Plain(XSD + "string")),
     ("boolean", Plain(XSD + "boolean")),
     ("date", Plain(XSD + "dateTime")),
     ("link", Plain("Link")),
     ("url", Plain(XSD + "anyURI")),
     ("coordinate", Plain("Coordinate2D")),
     ("range", Plain("Range2D")),
     ("boundingbox", Plain("BoundingBox")),
     ("float", Plain(XSD + "float")),
     ("unsigned", Plain(XSD + "unsignedInt")),
     ("angle", Plain(XSD + "float")),
     ("int", Plain(XSD + "int")),
     ("integer", Plain(XSD + "int")),
     ("country", TypeInfo(XSD + "string", Some("^[a-zA-Z]{2}"), None)),
     ("state", TypeInfo(XSD + "string", Some("^[a-zA-Z]{2}-(?:[a-zA-Z]{1,3}|[0-9]{1,3})$"), None)),
     ("link_type", Enum(["Image", "Video", "Document", "Routing", "Model"])),
     ("hdmap_road_type", Enum(["Bicycle", "LowSpeed", "Motorway", "Pedestrian", "Rural", "TownArterial", "TownCollector", "TownExpressway", "TownLocal", "TownPlayStreet", "TownPrivate", "Town", "Unknown"])),
     ("hdmap_lane_type", Enum(["biking", "border", "connectingRamp", "curb", "driving", "entry", "exit", "median", "none", "offRamp", "onRamp", "parking", "restricted", "shoulder", "slipLane", "stop", "walking"])),
     ("hdmap_object_type", Enum(["barrier", "bike", "building", "bus", "car", "crosswalk", "gantry", "motorbike"])),
     ("hdmap_type", Enum(["ASAM OpenDRIVE", "Lanelet2", "road2sim", "Road5", "roadXML", "Shape"])),
     ("hdmap_traffic_dir_type", Enum(["left-hand", "right-hand"])),
     ("surfacemodel_type", Enum(["ASAM OpenCRG", "DLM"])),
     ("scenario_type", Enum(["ASAM OpenSCENARIO XML", "ASAM OpenSCENARIO DSL"])),
     ("scenario_participant_type", Enum(["car", "truck", "pedestrian"])),
     ("model_type", Enum(["Unreal DataSmith", "Autodesk FBX", "OpenSceneGraph", "GLTF"])),
     ("model_detaillevel_type", Enum(["High", "Medium", "Low"])),
     ("geo_height_type", Enum(["Ellipsodial height", "Orthometric height"]))
    ]
  }

  /** Each value between two `q` characters. */
  function Quoted(vs: seq<string>, q: char): (r: seq<string>)
    ensures |r| == |vs| && forall k :: 0 <= k < |vs| ==> r[k] == [q] + vs[k] + [q]
  {
    if |vs| == 0 then [] else [[q] + vs[0] + [q]] + Quoted(vs[1..], q)
  }

  /** The text of the `sh:in_` literal: "('a' 'b' ...)". */
  function InLiteral(vs: seq<string>): string
  {
    "(" + Join(" ", Quoted(vs, '\'')) + ")"
  }

  /** A Turtle list of string literals: ("a" "b" ...). */
  function RdfList(vs: seq<string>): string
  {
    "(" + Join(" ", Quoted(vs, '"')) + ")"
  }

  /** The data types `handle_data_type` records as used nodes: those of the
      table whose type has no '#', i.e. names a shape and not an XSD type. */
  function NodeTypes(types: TypeTable, dataType: string): (r: set<string>)
    ensures r == {} || r == {dataType}
  {
    match Get(types, dataType)
    case Some(info) => if '#' in info.typ then {} else {dataType}
    case None => {}
  }

  /** The triples `handle_data_type` adds for a known type. */
  function TypeInfoTriples(p: Term, ns: string, info: TypeInfo): Graph
  {
    (if '#' in info.typ then [Triple(p, ShDatatype, Iri(info.typ))]
     else [Triple(p, ShNode, Iri(ns + info.typ + "Shape"))])
    + (if info.pattern.Some? then [Triple(p, ShPattern, Lit(info.pattern.value))] else [])
    + (if info.values.Some? then [Triple(p, ShIn, Lit(InLiteral(SortStrings(info.values.value))))] else [])
  }

  /** The triples `handle_data_type` adds for property node `p`; none for a
      type the table does not know. */
  function TypeTriples(types: TypeTable, p: Term, ns: string, dataType: string): Graph
  {
    match Get(types, dataType)
    case None => []
    case Some(info) => TypeInfoTriples(p, ns, info)
  }

  /** The link from the shape, the type triples and the path of a property. */
  function PropertyHead(types: TypeTable, shape: Term, p: Term, ns: string, a: Attrib): Graph
  {
    [Triple(shape, ShProperty, p)] + TypeTriples(types, p, ns, a.dataType) + [Triple(p, ShPath, Iri(ns + a.name))]
  }

  /** The cardinality triples of a property. */
  function CountTriples(p: Term, a: Attrib): Graph
  {
    (if a.frequencyMin.Some? && a.frequencyMin.value != 1 then [Triple(p, ShMinCount, IntLit(a.frequencyMin.value))] else [])
    + (if a.frequencyMax.Some? then [Triple(p, ShMaxCount, IntLit(a.frequencyMax.value))] else [])
    + (if a.frequencyMax.None? && a.frequencyMin.None? then [Triple(p, ShMaxCount, IntLit(1))] else [])
  }

  /** The example, message, name, description and order of a property. */
  function PropertyTail(p: Term, a: Attrib, order: int): Graph
  {
    (if a.example.Some? then [Triple(p, SkosExample, Lit(a.example.value))] else [])
    + [Triple(p, ShMessage, LangLit("Validation of " + a.name + " failed!", "en")),
       Triple(p, ShName, LangLit(a.name, "en"))]
    + (if a.description.Some? then [Triple(p, ShDescription, LangLit(a.description.value, "en"))] else [])
    + [Triple(p, ShOrder, IntLit(order))]
  }

  /** The triples `create_property` adds for row `a` at blank node `p`. */
  function PropertyTriples(types: TypeTable, shape: Term, p: Term, ns: string, a: Attrib, order: int): Graph
  {
    PropertyHead(types, shape, p, ns, a) + CountTriples(p, a) + PropertyTail(p, a, order)
  }

  /** `handle_data_type` only describes the property node, and only with
      sh:datatype, sh:node, sh:pattern and sh:in. */
  lemma TypeTriplesAbout(types: TypeTable, p: Term, ns: string, dataType: string)
    ensures forall t :: t in TypeTriples(types, p, ns, dataType) ==>
              t.s == p && (t.p == ShDatatype || t.p == ShNode || t.p == ShPattern || t.p == ShIn)
  {
    match Get(types, dataType)
    case None =>
    case Some(info) =>
      var link := if '#' in info.typ then [Triple(p, ShDatatype, Iri(info.typ))]
                  else [Triple(p, ShNode, Iri(ns + info.typ + "Shape"))];
      var pat := if info.pattern.Some? then [Triple(p, ShPattern, Lit(info.pattern.value))] else [];
      var vals := if info.values.Some? then [Triple(p, ShIn, Lit(InLiteral(SortStrings(info.values.value))))] else [];
      assert TypeTriples(types, p, ns, dataType) == link + pat + vals;
  }

  /** No triple of `g` is a sh:minCount or sh:maxCount. */
  predicate NoCounts(g: Graph)
  {
    forall t :: t in g ==> t.p != ShMinCount && t.p != ShMaxCount
  }

  /** Only the count triples of a property carry a cardinality. */
  lemma HeadTailNoCounts(types: TypeTable, shape: Term, p: Term, ns: string, a: Attrib, order: int)
    ensures NoCounts(PropertyHead(types, shape, p, ns, a)) && NoCounts(PropertyTail(p, a, order))
  {
    TypeTriplesAbout(types, p, ns, a.dataType);
  }

  /** The integer objects of the `pred` triples about `p`. */
  function CountsOf(g: Graph, p: Term, pred: Pred): set<int>
  {
    set t | t in g && t.s == p && t.p == pred && t.o.IntLit? :: t.o.n
  }

  lemma CountsOfAppend(a: Graph, b: Graph, p: Term, pred: Pred)
    ensures CountsOf(a + b, p, pred) == CountsOf(a, p, pred) + CountsOf(b, p, pred)
  {
    assert forall t :: t in a + b <==> t in a || t in b;
  }

  lemma CountsOfNone(g: Graph, p: Term, pred: Pred)
    requires forall t :: t in g ==> t.p != pred
    ensures CountsOf(g, p, pred) == {}
  {
  }

  /** `create_property` writes sh:minCount only for a minimum other than 1,
      sh:maxCount for a maximum, and maxCount 1 when neither bound is set. */
  lemma PropertyCardinality(types: TypeTable, shape: Term, p: Term, ns: string, a: Attrib, order: int)
    ensures CountsOf(PropertyTriples(types, shape, p, ns, a, order), p, ShMinCount)
            == if a.frequencyMin.Some? && a.frequencyMin.value != 1 then {a.frequencyMin.value} else {}
    ensures CountsOf(PropertyTriples(types, shape, p, ns, a, order), p, ShMaxCount)
            == if a.frequencyMax.Some? then {a.frequencyMax.value}
               else if a.frequencyMin.None? then {1} else {}
  {
    PropertyCountsOnly(types, shape, p, ns, a, order, ShMinCount);
    PropertyCountsOnly(types, shape, p, ns, a, order, ShMaxCount);
    CountTriplesCounts(p, a);
  }

  /** Only the count triples of a property carry its cardinality. */
  lemma PropertyCountsOnly(types: TypeTable, shape: Term, p: Term, ns: string, a: Attrib, order: int, pred: Pred)
    requires pred == ShMinCount || pred == ShMaxCount
    ensures CountsOf(PropertyTriples(types, shape, p, ns, a, order), p, pred) == CountsOf(CountTriples(p, a), p, pred)
  {
    var head := PropertyHead(types, shape, p, ns, a);
    var counts := CountTriples(p, a);
    var tail := PropertyTail(p, a, order);
    assert PropertyTriples(types, shape, p, ns, a, order) == head + counts + tail;
    CountsOfAppend(head + counts, tail, p, pred);
    CountsOfAppend(head, counts, p, pred);
    HeadTailNoCounts(types, shape, p, ns, a, order);
    CountsOfNone(head, p, pred);
    CountsOfNone(tail, p, pred);
  }

  /** The cardinalities the count triples of a property state. */
  lemma CountTriplesCounts(p: Term, a: Attrib)
    ensures CountsOf(CountTriples(p, a), p, ShMinCount)
            == if a.frequencyMin.Some? && a.frequencyMin.value != 1 then {a.frequencyMin.value} else {}
    ensures CountsOf(CountTriples(p, a), p, ShMaxCount)
            == if a.frequencyMax.Some? then {a.frequencyMax.value}
               else if a.frequencyMin.None? then {1} else {}
  {
    var counts := CountTriples(p, a);
    var mn := if a.frequencyMin.Some? && a.frequencyMin.value != 1 then [Triple(p, ShMinCount, IntLit(a.frequencyMin.value))] else [];
    var mx := if a.frequencyMax.Some? then [Triple(p, ShMaxCount, IntLit(a.frequencyMax.value))] else [];
    var df := if a.frequencyMax.None? && a.frequencyMin.None? then [Triple(p, ShMaxCount, IntLit(1))] else [];
    assert counts == mn + mx + df;
    forall pred
      ensures CountsOf(counts, p, pred) == CountsOf(mn, p, pred) + CountsOf(mx, p, pred) + CountsOf(df, p, pred)
    {
      CountsOfAppend(mn + mx, df, p, pred);
      CountsOfAppend(mn, mx, p, pred);
    }
    CountsOfNone(mn, p, ShMaxCount);
    CountsOfNone(mx, p, ShMinCount);
    CountsOfNone(df, p, ShMinCount);
  }

  /** From the frequency text of a spreadsheet row to the cardinality of its
      property. "1-n" gets no cardinality at all, so the shape leaves such an
      attribute optional. */
  lemma FrequencyCardinality(types: TypeTable, shape: Term, p: Term, ns: string, a: Attrib, order: int, f: string)
    requires a.frequency == Some(f) && a.unit.Some? && a.frequencyMin.None? && a.frequencyMax.None?
    ensures ConvertRow(a).Ok?
    ensures var T := PropertyTriples(types, shape, p, ns, ConvertRow(a).value, order);
            var mins := CountsOf(T, p, ShMinCount);
            var maxs := CountsOf(T, p, ShMaxCount);
            (f == "1" || f == "1.0" ==> mins == {} && maxs == {1})
            && (f == "0-n" ==> mins == {0} && maxs == {})
            && (f == "1-n" ==> mins == {} && maxs == {})
            && (f == "0-1" ==> mins == {0} && maxs == {1})
            && (f == "nan" ==> mins == {0} && maxs == {})
            && (f != "1" && f != "1.0" && f != "0-n" && f != "1-n" && f != "0-1" && f != "nan" ==> mins == {} && maxs == {1})
  {
    var b := ConvertRow(a).value;
    var (mn, mx) := FrequencyBounds(f);
    assert b.frequencyMin == mn && b.frequencyMax == mx;
    PropertyCardinality(types, shape, p, ns, b, order);
    var T := PropertyTriples(types, shape, p, ns, b, order);
    assert CountsOf(T, p, ShMinCount) == if mn.Some? && mn.value != 1 then {mn.value} else {};
    assert CountsOf(T, p, ShMaxCount) == if mx.Some? then {mx.value} else if mn.None? then {1} else {};
  }

  /** A type of the table with '#' is an XSD datatype; any other names a node
      shape and is recorded; an unknown type adds no type triple. */
  lemma DataTypeOrNode(types: TypeTable, p: Term, ns: string, dataType: string)
    ensures Get(types, dataType).None? ==> TypeTriples(types, p, ns, dataType) == [] && NodeTypes(types, dataType) == {}
    ensures Get(types, dataType).Some? ==>
              var typ := Get(types, dataType).value.typ;
              ('#' in typ ==> Triple(p, ShDatatype, Iri(typ)) in TypeTriples(types, p, ns, dataType) && NodeTypes(types, dataType) == {})
              && ('#' !in typ ==> (Triple(p, ShNode, Iri(ns + typ + "Shape")) in TypeTriples(types, p, ns, dataType)
                                   && NodeTypes(types, dataType) == {dataType}))
  {
  }

  /** An enumeration's literal lists its values sorted, each in single quotes,
      whatever order the table gives them in. */
  lemma EnumLiteral(types: TypeTable, p: Term, ns: string, dataType: string)
    requires Get(types, dataType).Some? && Get(types, dataType).value.values.Some?
    ensures var vs := Get(types, dataType).value.values.value;
            exists sorted :: SortedStr(sorted) && multiset(sorted) == multiset(vs)
                             && Triple(p, ShIn, Lit(InLiteral(sorted))) in TypeTriples(types, p, ns, dataType)
  {
    var info := Get(types, dataType).value;
    var vs := info.values.value;
    SortStringsSorted(vs);
    assert Triple(p, ShIn, Lit(InLiteral(SortStrings(vs)))) in TypeInfoTriples(p, ns, info);
  }

  // ---------------------------------------------------------- fix_shacle

  /** Drop every '"', then turn every "'" into '"'. */
  function Requote(s: string): string
  {
    Replace(Replace(s, "\"", ""), "'", "\"")
  }

  /** The rewrite of one line of the written file. */
  function FixLine(line: string): string
  {
    if Contains(line, "sh:in_") then Requote(Replace(line, "sh:in_", "sh:in")) else line
  }

  /** `fix_shacle` on the lines of the file, rewritten in place. */
  method FixShacl(lines: array<string>)
    modifies lines
    ensures forall i :: 0 <= i < lines.Length ==> lines[i] == FixLine(old(lines[i]))
  {
    for i := 0 to lines.Length
      invariant forall j :: 0 <= j < i ==> lines[j] == FixLine(old(lines[j]))
      invariant forall j :: i <= j < lines.Length ==> lines[j] == old(lines[j])
    {
      if Contains(lines[i], "sh:in_") {
        lines[i] := Requote(Replace(lines[i], "sh:in_", "sh:in"));
      }
    }
  }

  /** No value holds a quote character of either kind. */
  predicate Unquoted(vs: seq<string>)
  {
    forall k :: 0 <= k < |vs| ==> '\'' !in vs[k] && '"' !in vs[k]
  }

  lemma {:induction false} JoinNoChar(parts: seq<string>, c: char)
    requires c != ' ' && forall k :: 0 <= k < |parts| ==> c !in parts[k]
    ensures c !in Join(" ", parts)
  {
    if |parts| > 1 {
      JoinNoChar(parts[1..], c);
      assert Join(" ", parts) == parts[0] + " " + Join(" ", parts[1..]);
    }
  }

  /** Swapping the quote character of every quoted value. */
  lemma {:induction false} JoinRequoted(vs: seq<string>)
    requires Unquoted(vs)
    ensures Replace(Join(" ", Quoted(vs, '\'')), "'", "\"") == Join(" ", Quoted(vs, '"'))
  {
    if |vs| > 0 {
      var v := vs[0];
      ReplaceNoChar(v, '\'', "\"");
      ReplaceCharConcat("'" + v, "'", '\'', "\"");
      ReplaceCharConcat("'", v, '\'', "\"");
      var q := Quoted(vs, '\'')[0];
      assert q == "'" + v + "'";
      assert Replace(q, "'", "\"") == "\"" + v + "\"";
      if |vs| > 1 {
        JoinRequoted(vs[1..]);
        assert Quoted(vs, '\'')[1..] == Quoted(vs[1..], '\'');
        assert Quoted(vs, '"')[1..] == Quoted(vs[1..], '"');
        var rest := Join(" ", Quoted(vs[1..], '\''));
        ReplaceCharConcat(q + " ", rest, '\'', "\"");
        ReplaceCharConcat(q, " ", '\'', "\"");
        ReplaceNoChar(" ", '\'', "\"");
      }
    }
  }

  /** The '"'-delimited literal of quoted values becomes a Turtle list of
      string literals once `fix_shacle` has rewritten its line, so the shape
      gets a real sh:in list. */
  lemma InLiteralRequoted(vs: seq<string>)
    requires Unquoted(vs)
    ensures Requote("\"" + InLiteral(vs) + "\"") == RdfList(vs)
  {
    var qs := Quoted(vs, '\'');
    var j := Join(" ", qs);
    JoinNoChar(qs, '"');
    var lit := InLiteral(vs);
    assert lit == "(" + j + ")";
    assert '"' !in lit;
    ReplaceNoChar(lit, '"', "");
    ReplaceCharConcat("\"" + lit, "\"", '"', "");
    ReplaceCharConcat("\"", lit, '"', "");
    assert Replace("\"" + lit + "\"", "\"", "") == lit;
    JoinRequoted(vs);
    ReplaceCharConcat("(" + j, ")", '\'', "\"");
    ReplaceCharConcat("(", j, '\'', "\"");
    ReplaceNoChar("(", '\'', "\"");
    ReplaceNoChar(")", '\'', "\"");
  }

  // ---------------------------------------------------------- create_shacl

  /** The sub-category names of a category in order, without `categorie_data`. */
  function SubCategoryNames(c: Category): (r: seq<string>)
    ensures |r| <= |c|
  {
    if |c| == 0 then []
    else
      var last := c[|c| - 1].0;
      SubCategoryNames(c[..|c| - 1]) + (if last == CategoryDataKey then [] else [last])
  }

  /** `categorie_data` is never a sub-category. */
  lemma {:induction false} SubCategoryNamesNoData(c: Category)
    ensures CategoryDataKey !in SubCategoryNames(c)
  {
    if |c| > 0 {
      SubCategoryNamesNoData(c[..|c| - 1]);
    }
  }

  /** One more entry of the category adds its name unless it is `categorie_data`. */
  lemma SubCategoryNamesStep(c: Category, i: nat)
    requires i < |c|
    ensures SubCategoryNames(c[..i + 1])
            == SubCategoryNames(c[..i]) + (if c[i].0 == CategoryDataKey then [] else [c[i].0])
  {
    assert c[..i + 1][..i] == c[..i];
  }

  /** The root property that links the category shape to a sub-category
      shape, with `path` the camel-cased name of the sub-category. */
  function RootProperty(ns: string, catShape: Term, sub: string, path: string, p: Term, order: int): Graph
  {
    [Triple(catShape, ShProperty, p),
     Triple(p, ShMinCount, IntLit(1)),
     Triple(p, ShMaxCount, IntLit(1)),
     Triple(p, ShPath, Iri(ns + path)),
     Triple(p, ShNode, Iri(ns + sub + "Shape")),
     Triple(p, ShOrder, IntLit(order))]
  }

  /** The root properties of `subs`, the k-th at blank node b0 + k with
      order k and path `camel(subs[k])`. */
  function RootProperties(ns: string, catShape: Term, camel: string -> string, subs: seq<string>, b0: nat): Graph
  {
    if |subs| == 0 then []
    else
      var k := |subs| - 1;
      RootProperties(ns, catShape, camel, subs[..k], b0) + RootProperty(ns, catShape, subs[k], camel(subs[k]), Blank(b0 + k), k)
  }

  /** One more sub-category appends its root property. */
  lemma RootPropertiesSnoc(ns: string, catShape: Term, camel: string -> string, subs: seq<string>, sub: string, b0: nat)
    ensures RootProperties(ns, catShape, camel, subs + [sub], b0)
            == RootProperties(ns, catShape, camel, subs, b0) + RootProperty(ns, catShape, sub, camel(sub), Blank(b0 + |subs|), |subs|)
  {
    assert (subs + [sub])[..|subs|] == subs;
  }

  lemma AppendAssoc(a: Graph, b: Graph, c: Graph)
    ensures (a + b) + c == a + (b + c)
  {
  }

  /** The objects of the sh:property triples of `s`. */
  function Links(g: Graph, s: Term): set<Term>
  {
    set t | t in g && t.s == s && t.p == ShProperty :: t.o
  }

  lemma LinksAppend(a: Graph, b: Graph, s: Term)
    ensures Links(a + b, s) == Links(a, s) + Links(b, s)
  {
    assert forall t :: t in a + b <==> t in a || t in b;
  }

  lemma RootPropertyLink(ns: string, catShape: Term, sub: string, path: string, p: Term, order: int)
    requires catShape.Iri? && p.Blank?
    ensures Links(RootProperty(ns, catShape, sub, path, p, order), catShape) == {p}
  {
    var g := RootProperty(ns, catShape, sub, path, p, order);
    assert g[0] == Triple(catShape, ShProperty, p);
  }

  /** The category shape links to exactly one property node per sub-category. */
  lemma {:induction false} RootPropertyLinks(ns: string, catShape: Term, camel: string -> string, subs: seq<string>, b0: nat)
    requires catShape.Iri?
    ensures forall o :: o in Links(RootProperties(ns, catShape, camel, subs, b0), catShape) <==> o.Blank? && b0 <= o.id < b0 + |subs|
  {
    if |subs| > 0 {
      var k := |subs| - 1;
      RootPropertyLinks(ns, catShape, camel, subs[..k], b0);
      var A := RootProperties(ns, catShape, camel, subs[..k], b0);
      var B := RootProperty(ns, catShape, subs[k], camel(subs[k]), Blank(b0 + k), k);
      LinksAppend(A, B, catShape);
      RootPropertyLink(ns, catShape, subs[k], camel(subs[k]), Blank(b0 + k), k);
      var L := Links(A + B, catShape);
      assert L == Links(A, catShape) + {Blank(b0 + k)};
      forall o
        ensures o in L <==> o.Blank? && b0 <= o.id < b0 + |subs|
      {
        assert o in L <==> o in Links(A, catShape) || o == Blank(b0 + k);
      }
    }
  }

  /** The k-th sub-category's root property is required, single, ordered k
      and points at the camel-cased name and the sub-category shape. */
  lemma {:induction false} RootPropertyOrders(ns: string, catShape: Term, camel: string -> string, subs: seq<string>, b0: nat, k: nat)
    requires k < |subs|
    ensures var p := Blank(b0 + k);
            var g := RootProperties(ns, catShape, camel, subs, b0);
            Triple(catShape, ShProperty, p) in g
            && Triple(p, ShMinCount, IntLit(1)) in g && Triple(p, ShMaxCount, IntLit(1)) in g
            && Triple(p, ShOrder, IntLit(k)) in g
            && Triple(p, ShPath, Iri(ns + camel(subs[k]))) in g
            && Triple(p, ShNode, Iri(ns + subs[k] + "Shape")) in g
  {
    var n := |subs| - 1;
    var A := RootProperties(ns, catShape, camel, subs[..n], b0);
    var B := RootProperty(ns, catShape, subs[n], camel(subs[n]), Blank(b0 + n), n);
    assert forall t :: t in A ==> t in A + B;
    assert forall t :: t in B ==> t in A + B;
    if k < n {
      RootPropertyOrders(ns, catShape, camel, subs[..n], b0, k);
      assert subs[..n][k] == subs[k];
    }
  }

  /** What the builder holds: the graph, the blank nodes handed out and the
      node types recorded for `create_data_structure`. */
  datatype BuildState = BuildState(graph: Graph, blanks: nat, used: set<string>)

  /** `g` links `shape` to property node `p` and gives `p` the order `order`. */
  predicate HasProperty(g: Graph, shape: Term, p: Term, order: int)
  {
    Triple(shape, ShProperty, p) in g && Triple(p, ShOrder, IntLit(order)) in g
  }

  /** Appending keeps every property already in the graph. */
  lemma PrefixHasProperty(g0: Graph, g1: Graph, shape: Term, p: Term, order: int)
    requires g0 <= g1 && HasProperty(g0, shape, p, order)
    ensures HasProperty(g1, shape, p, order)
  {
    var k :| 0 <= k < |g0| && g0[k] == Triple(shape, ShProperty, p);
    var m :| 0 <= m < |g0| && g0[m] == Triple(p, ShOrder, IntLit(order));
    assert g1[k] == g0[k] && g1[m] == g0[m];
  }

  /** A property is linked from its shape and carries its order. */
  lemma PropertyLinkAndOrder(types: TypeTable, shape: Term, p: Term, ns: string, a: Attrib, order: int)
    ensures HasProperty(PropertyTriples(types, shape, p, ns, a, order), shape, p, order)
  {
    var head := PropertyHead(types, shape, p, ns, a);
    var tail := PropertyTail(p, a, order);
    assert head[0] == Triple(shape, ShProperty, p);
    var T := head + CountTriples(p, a) + tail;
    assert T[0] == head[0];
    assert T[|T| - 1] == tail[|tail| - 1] == Triple(p, ShOrder, IntLit(order));
  }

  /** `create_property` on a fresh blank node. */
  function PropertyStep(types: TypeTable, st: BuildState, shape: Term, ns: string, a: Attrib, order: int): BuildState
  {
    BuildState(st.graph + PropertyTriples(types, shape, Blank(st.blanks), ns, a, order),
               st.blanks + 1, st.used + NodeTypes(types, a.dataType))
  }

  /** One property step appends, hands out one blank node and links that
      node from the shape with the given order. */
  lemma PropertyStepAppends(types: TypeTable, st: BuildState, shape: Term, ns: string, a: Attrib, order: int)
    ensures var st1 := PropertyStep(types, st, shape, ns, a, order);
            st.graph <= st1.graph && st1.blanks == st.blanks + 1
            && HasProperty(st1.graph, shape, Blank(st.blanks), order)
  {
    var T := PropertyTriples(types, shape, Blank(st.blanks), ns, a, order);
    PropertyLinkAndOrder(types, shape, Blank(st.blanks), ns, a, order);
    PrefixHasProperty(T, T, shape, Blank(st.blanks), order);
    assert forall t :: t in T ==> t in st.graph + T;
  }

  /** `create_property(shape, ns, row, order)` as a function of the builder
      state. The folds below take it as a value, so what is proved about them
      holds for any step that behaves like `create_property`. */
  type PropertyCreator = (BuildState, Term, string, Attrib, int) -> BuildState

  /** `create_property` with the type table `types`. */
  function Creator(types: TypeTable): PropertyCreator
  {
    (st: BuildState, shape: Term, ns: string, a: Attrib, order: int) => PropertyStep(types, st, shape, ns, a, order)
  }

  /** `create` only appends, hands out one blank node per call and links that
      node from the shape with the order it was given. */
  ghost predicate Creates(create: PropertyCreator)
  {
    forall st: BuildState, shape: Term, ns: string, a: Attrib, order: int ::
      st.graph <= create(st, shape, ns, a, order).graph && create(st, shape, ns, a, order).blanks == st.blanks + 1
      && HasProperty(create(st, shape, ns, a, order).graph, shape, Blank(st.blanks), order)
  }

  lemma CreatorCreates(types: TypeTable)
    ensures Creates(Creator(types))
  {
    forall st: BuildState, shape: Term, ns: string, a: Attrib, order: int
      ensures var st1 := Creator(types)(st, shape, ns, a, order);
              st.graph <= st1.graph && st1.blanks == st.blanks + 1
              && HasProperty(st1.graph, shape, Blank(st.blanks), order)
    {
      PropertyStepAppends(types, st, shape, ns, a, order);
    }
  }

  /** The properties of the rows of a sub-category from index `i` on, ordered
      by position; an entry that is not a row raises TypeError. */
  function RowsFrom(create: PropertyCreator, st: BuildState, shape: Term, ns: string, rows: SubCategory, i: nat): Result<BuildState>
    requires i <= |rows|
    decreases |rows| - i
  {
    if i == |rows| then Ok(st)
    else
      match rows[i].1
      case Text(_) => Err(TypeError("string indices must be integers"))
      case Row(a) => RowsFrom(create, create(st, shape, ns, a, i), shape, ns, rows, i + 1)
  }

  /** One row of `RowsFrom` with the creator `create_property` uses. */
  lemma RowsFromNext(types: TypeTable, st: BuildState, shape: Term, ns: string, rows: SubCategory, i: nat)
    requires i < |rows|
    ensures rows[i].1.Text? ==> RowsFrom(Creator(types), st, shape, ns, rows, i) == Err(TypeError("string indices must be integers"))
    ensures rows[i].1.Row? ==>
              RowsFrom(Creator(types), st, shape, ns, rows, i)
              == RowsFrom(Creator(types), PropertyStep(types, st, shape, ns, rows[i].1.a, i), shape, ns, rows, i + 1)
  {
  }

  /** The rows of a sub-category only append to the graph and take one blank
      node each. */
  lemma {:induction false} RowsFromGrows(create: PropertyCreator, st: BuildState, shape: Term, ns: string, rows: SubCategory, i: nat, r: BuildState)
    requires Creates(create)
    requires i <= |rows| && RowsFrom(create, st, shape, ns, rows, i) == Ok(r)
    ensures st.graph <= r.graph && r.blanks == st.blanks + (|rows| - i)
    decreases |rows| - i
  {
    if i < |rows| {
      var st1 := create(st, shape, ns, rows[i].1.a, i);
      RowsFromGrows(create, st1, shape, ns, rows, i + 1, r);
    }
  }

  /** A sub-category converts only when every entry of it is a row. */
  lemma {:induction false} RowsFromAllRows(create: PropertyCreator, st: BuildState, shape: Term, ns: string, rows: SubCategory, i: nat, j: nat)
    requires i <= j < |rows| && RowsFrom(create, st, shape, ns, rows, i).Ok?
    ensures rows[j].1.Row?
    decreases |rows| - i
  {
    if j > i {
      RowsFromAllRows(create, create(st, shape, ns, rows[i].1.a, i), shape, ns, rows, i + 1, j);
    }
  }

  /** The `j`-th row of a sub-category gets a property at its own blank node
      whose sh:order is the row's position. */
  lemma {:induction false} RowsFromProperty(create: PropertyCreator, st: BuildState, shape: Term, ns: string, rows: SubCategory, i: nat, j: nat, r: BuildState)
    requires Creates(create)
    requires i <= j < |rows| && RowsFrom(create, st, shape, ns, rows, i) == Ok(r)
    ensures HasProperty(r.graph, shape, Blank(st.blanks + (j - i)), j)
    decreases |rows| - i
  {
    var st1 := create(st, shape, ns, rows[i].1.a, i);
    if j == i {
      RowsFromGrows(create, st1, shape, ns, rows, i + 1, r);
      PrefixHasProperty(st1.graph, r.graph, shape, Blank(st.blanks), i);
    } else {
      RowsFromProperty(create, st1, shape, ns, rows, i + 1, j, r);
    }
  }

  /** The node shape of one sub-category with a property per row. */
  function SubShape(create: PropertyCreator, st: BuildState, ns: string, sub: string, rows: SubCategory): Result<BuildState>
  {
    var shape := Iri(ns + sub + "Shape");
    var st1 :- RowsFrom(create, st.(graph := st.graph + [Triple(shape, RdfType, NodeShape)]), shape, ns, rows, 0);
    Ok(st1.(graph := st1.graph + [Triple(shape, ShTargetClass, Iri(ns + sub))]))
  }

  /** The sub-category shapes from index `i` on, skipping `categorie_data`. */
  function SubShapesFrom(create: PropertyCreator, st: BuildState, ns: string, c: Category, i: nat): Result<BuildState>
    requires i <= |c|
    decreases |c| - i
  {
    if i == |c| then Ok(st)
    else if c[i].0 == CategoryDataKey then SubShapesFrom(create, st, ns, c, i + 1)
    else
      var st1 :- SubShape(create, st, ns, c[i].0, c[i].1);
      SubShapesFrom(create, st1, ns, c, i + 1)
  }

  /** A sub-category shape starts with its NodeShape triple and only appends. */
  lemma SubShapeGrows(create: PropertyCreator, st: BuildState, ns: string, sub: string, rows: SubCategory, r: BuildState)
    requires Creates(create) && SubShape(create, st, ns, sub, rows) == Ok(r)
    ensures st.graph <= r.graph && |r.graph| > |st.graph|
    ensures r.graph[|st.graph|] == Triple(Iri(ns + sub + "Shape"), RdfType, NodeShape)
  {
    var shape := Iri(ns + sub + "Shape");
    var st0 := st.(graph := st.graph + [Triple(shape, RdfType, NodeShape)]);
    var st1 := RowsFrom(create, st0, shape, ns, rows, 0).value;
    RowsFromGrows(create, st0, shape, ns, rows, 0, st1);
    assert r.graph == st1.graph + [Triple(shape, ShTargetClass, Iri(ns + sub))];
    assert st0.graph[|st.graph|] == Triple(shape, RdfType, NodeShape);
  }

  /** The k-th row of a sub-category gets a property of the sub-category
      shape at the k-th blank node handed out for it, ordered k. */
  lemma SubShapeProperty(create: PropertyCreator, st: BuildState, ns: string, sub: string, rows: SubCategory, r: BuildState, k: nat)
    requires Creates(create) && SubShape(create, st, ns, sub, rows) == Ok(r) && k < |rows|
    ensures HasProperty(r.graph, Iri(ns + sub + "Shape"), Blank(st.blanks + k), k)
  {
    var shape := Iri(ns + sub + "Shape");
    var st0 := st.(graph := st.graph + [Triple(shape, RdfType, NodeShape)]);
    var st1 := RowsFrom(create, st0, shape, ns, rows, 0).value;
    RowsFromProperty(create, st0, shape, ns, rows, 0, k, st1);
    assert r.graph == st1.graph + [Triple(shape, ShTargetClass, Iri(ns + sub))];
    PrefixHasProperty(st1.graph, r.graph, shape, Blank(st.blanks + k), k);
  }

  /** The sub-category shapes only append to the graph. */
  lemma {:induction false} SubShapesFromGrows(create: PropertyCreator, st: BuildState, ns: string, c: Category, i: nat, r: BuildState)
    requires Creates(create)
    requires i <= |c| && SubShapesFrom(create, st, ns, c, i) == Ok(r)
    ensures st.graph <= r.graph
    decreases |c| - i
  {
    if i < |c| {
      if c[i].0 == CategoryDataKey {
        SubShapesFromGrows(create, st, ns, c, i + 1, r);
      } else {
        var st1 := SubShape(create, st, ns, c[i].0, c[i].1).value;
        SubShapeGrows(create, st, ns, c[i].0, c[i].1, st1);
        SubShapesFromGrows(create, st1, ns, c, i + 1, r);
      }
    }
  }

  /** A property of a built-in shape: name, data type and sh:order. */
  datatype BuiltinProp = BuiltinProp(name: string, dataType: string, order: int)

  const BoundingBoxProps: seq<BuiltinProp> :=
    [BuiltinProp("xMin", "float", 0), BuiltinProp("yMin", "float", 1),
     BuiltinProp("xMax", "float", 2), BuiltinProp("yMax", "float", 3)]
  const Coordinate2DProps: seq<BuiltinProp> := [BuiltinProp("x", "float", 0), BuiltinProp("y", "float", 1)]
  /** `create_Range2DShape` as written gives both properties order 0. */
  const Range2DPropsAsWritten: seq<BuiltinProp> := [BuiltinProp("min", "float", 0), BuiltinProp("max", "float", 0)]
  const Range2DProps: seq<BuiltinProp> := [BuiltinProp("min", "float", 0), BuiltinProp("max", "float", 1)]
  const LinkProps: seq<BuiltinProp> := [BuiltinProp("url", "url", 0), BuiltinProp("type", "link_type", 1)]

  /** The row `create_property` gets for a built-in property: name and data type only. */
  function BuiltinRow(b: BuiltinProp): Attrib
  {
    Attrib(b.name, b.dataType, None, None, None, None, None, None)
  }

  /** The data types with a built-in shape, and that shape's name and properties. */
  function BuiltinShape(key: string): Option<(string, seq<BuiltinProp>)>
  {
    if key == "boundingbox" then Some(("BoundingBox", BoundingBoxProps))
    else if key == "coordinate" then Some(("Coordinate2D", Coordinate2DProps))
    else if key == "range" then Some(("Range2D", Range2DProps))
    else if key == "link" then Some(("Link", LinkProps))
    else None
  }

  /** Two properties of a shape never share an sh:order. */
  predicate DistinctOrders(props: seq<BuiltinProp>)
  {
    forall i, j :: 0 <= i < j < |props| ==> props[i].order != props[j].order
  }

  /** As written, the two Range2D properties get the same sh:order. */
  lemma Range2DOrdersClash()
    ensures !DistinctOrders(Range2DPropsAsWritten)
    ensures Range2DPropsAsWritten[0].order == Range2DPropsAsWritten[1].order == 0
  {
    assert Range2DPropsAsWritten[0].order == Range2DPropsAsWritten[1].order;
  }

  /** With the corrected Range2D, every built-in shape orders its properties
      0, 1, ... by position, without repeats. */
  lemma BuiltinOrdersDistinct(key: string)
    requires BuiltinShape(key).Some?
    ensures var props := BuiltinShape(key).value.1;
            DistinctOrders(props) && forall i :: 0 <= i < |props| ==> props[i].order == i
  {
  }

  /** The properties of a built-in shape from index `i` on. */
  function BuiltinPropsFrom(create: PropertyCreator, st: BuildState, shape: Term, ns: string, props: seq<BuiltinProp>, i: nat): BuildState
    requires i <= |props|
    decreases |props| - i
  {
    if i == |props| then st
    else BuiltinPropsFrom(create, create(st, shape, ns, BuiltinRow(props[i]), props[i].order), shape, ns, props, i + 1)
  }

  /** The built-in properties only append, and the k-th gets the k-th blank
      node from `st` on, with its own order. */
  lemma {:induction false} BuiltinPropsFromProperties(create: PropertyCreator, st: BuildState, shape: Term, ns: string, props: seq<BuiltinProp>, i: nat)
    requires Creates(create) && i <= |props|
    ensures var r := BuiltinPropsFrom(create, st, shape, ns, props, i);
            st.graph <= r.graph && r.blanks == st.blanks + (|props| - i)
            && forall k :: i <= k < |props| ==> HasProperty(r.graph, shape, Blank(st.blanks + (k - i)), props[k].order)
    decreases |props| - i
  {
    if i < |props| {
      var st1 := create(st, shape, ns, BuiltinRow(props[i]), props[i].order);
      BuiltinPropsFromProperties(create, st1, shape, ns, props, i + 1);
      var r := BuiltinPropsFrom(create, st1, shape, ns, props, i + 1);
      PrefixHasProperty(st1.graph, r.graph, shape, Blank(st.blanks), props[i].order);
    }
  }

  /** One built-in node shape with its target class and properties. */
  function BuiltinShapeStep(create: PropertyCreator, st: BuildState, ns: string, name: string, props: seq<BuiltinProp>): BuildState
  {
    var shape := Iri(ns + name + "Shape");
    BuiltinPropsFrom(create, st.(graph := st.graph + [Triple(shape, RdfType, NodeShape), Triple(shape, ShTargetClass, Iri(ns + name))]),
                     shape, ns, props, 0)
  }

  /** A built-in shape starts with its NodeShape triple and only appends. */
  lemma BuiltinShapeStepGrows(create: PropertyCreator, st: BuildState, ns: string, name: string, props: seq<BuiltinProp>)
    requires Creates(create)
    ensures var r := BuiltinShapeStep(create, st, ns, name, props);
            st.graph <= r.graph && |r.graph| > |st.graph|
            && r.graph[|st.graph|] == Triple(Iri(ns + name + "Shape"), RdfType, NodeShape)
  {
    var shape := Iri(ns + name + "Shape");
    var st0 := st.(graph := st.graph + [Triple(shape, RdfType, NodeShape), Triple(shape, ShTargetClass, Iri(ns + name))]);
    BuiltinPropsFromProperties(create, st0, shape, ns, props, 0);
    assert st0.graph[|st.graph|] == Triple(shape, RdfType, NodeShape);
  }

  /** The Range2D shape built from the table as written: its two properties sit
      at two fresh blank nodes that both carry sh:order 0. */
  lemma Range2DAsWrittenShape(create: PropertyCreator, st: BuildState, ns: string)
    requires Creates(create)
    ensures var r := BuiltinShapeStep(create, st, ns, "Range2D", Range2DPropsAsWritten);
            HasProperty(r.graph, Iri(ns + "Range2D" + "Shape"), Blank(st.blanks), 0)
            && HasProperty(r.graph, Iri(ns + "Range2D" + "Shape"), Blank(st.blanks + 1), 0)
  {
    var shape := Iri(ns + "Range2D" + "Shape");
    var st0 := st.(graph := st.graph + [Triple(shape, RdfType, NodeShape), Triple(shape, ShTargetClass, Iri(ns + "Range2D"))]);
    BuiltinPropsFromProperties(create, st0, shape, ns, Range2DPropsAsWritten, 0);
  }

  /** The Range2D shape the generator builds from the corrected table: sh:order
      0 for `min` and 1 for `max`. */
  lemma Range2DShapeOrders(create: PropertyCreator, st: BuildState, ns: string)
    requires Creates(create)
    ensures var r := BuiltinShapeStep(create, st, ns, "Range2D", Range2DProps);
            HasProperty(r.graph, Iri(ns + "Range2D" + "Shape"), Blank(st.blanks), 0)
            && HasProperty(r.graph, Iri(ns + "Range2D" + "Shape"), Blank(st.blanks + 1), 1)
  {
    var shape := Iri(ns + "Range2D" + "Shape");
    var st0 := st.(graph := st.graph + [Triple(shape, RdfType, NodeShape), Triple(shape, ShTargetClass, Iri(ns + "Range2D"))]);
    BuiltinPropsFromProperties(create, st0, shape, ns, Range2DProps, 0);
  }

  /** The order in which the model visits the recorded node types. */
  const StructureOrder: seq<string> := ["boundingbox", "coordinate", "range", "link"]

  /** `create_data_structure` from the `i`-th known type on; a recorded type
      without a built-in shape is only logged. */
  function StructureFrom(create: PropertyCreator, st: BuildState, ns: string, used: set<string>, i: nat): BuildState
    requires i <= |StructureOrder|
    decreases |StructureOrder| - i
  {
    if i == |StructureOrder| then st
    else
      var key := StructureOrder[i];
      if key in used then
        var shape := BuiltinShape(key).value;
        StructureFrom(create, BuiltinShapeStep(create, st, ns, shape.0, shape.1), ns, used, i + 1)
      else StructureFrom(create, st, ns, used, i + 1)
  }

  /** Every recorded type with a built-in shape gets that node shape, and
      nothing already in the graph is lost. */
  lemma {:induction false} StructureShapes(create: PropertyCreator, st: BuildState, ns: string, used: set<string>, i: nat)
    requires Creates(create) && i <= |StructureOrder|
    ensures var r := StructureFrom(create, st, ns, used, i);
            st.graph <= r.graph
            && forall j :: i <= j < |StructureOrder| && StructureOrder[j] in used ==>
                 Triple(Iri(ns + BuiltinShape(StructureOrder[j]).value.0 + "Shape"), RdfType, NodeShape) in r.graph
    decreases |StructureOrder| - i
  {
    if i < |StructureOrder| {
      var key := StructureOrder[i];
      var st1 := st;
      if key in used {
        var shape := BuiltinShape(key).value;
        st1 := BuiltinShapeStep(create, st, ns, shape.0, shape.1);
        BuiltinShapeStepGrows(create, st, ns, shape.0, shape.1);
      }
      assert StructureFrom(create, st, ns, used, i) == StructureFrom(create, st1, ns, used, i + 1);
      StructureShapes(create, st1, ns, used, i + 1);
      var r := StructureFrom(create, st1, ns, used, i + 1);
      forall j | i <= j < |StructureOrder| && StructureOrder[j] in used
        ensures Triple(Iri(ns + BuiltinShape(StructureOrder[j]).value.0 + "Shape"), RdfType, NodeShape) in r.graph
      {
        if j == i {
          PrefixIndex(st1.graph, r.graph, |st.graph|);
        }
      }
    }
  }

  lemma PrefixIndex<T>(a: seq<T>, b: seq<T>, k: nat)
    requires a <= b && k < |a|
    ensures b[k] == a[k] && a[k] in b
  {
  }

  /** The namespace IRI of a category. */
  function CategoryNamespace(cat: string, linkRepro: string): string
  {
    linkRepro + Lower(cat) + "/"
  }

  /** The state after the category shape, its root properties and its target class. */
  function CategoryShapeState(cat: string, catData: Category, ns: string): BuildState
  {
    var catShape := Iri(ns + cat + "Shape");
    var subs := SubCategoryNames(catData);
    BuildState([Triple(catShape, RdfType, NodeShape)] + RootProperties(ns, catShape, CamelCase, subs, 0)
               + [Triple(catShape, ShTargetClass, Iri(ns + cat))], |subs|, {})
  }

  /** The graph `create_shacl` serialises for one category, given the type table. */
  function ShaclGraph(create: PropertyCreator, cat: string, catData: Category, linkRepro: string): Result<Graph>
  {
    var ns := CategoryNamespace(cat, linkRepro);
    var st1 :- SubShapesFrom(create, CategoryShapeState(cat, catData, ns), ns, catData, 0);
    Ok(StructureFrom(create, st1, ns, st1.used, 0).graph)
  }

  /** The graph `create_shacl` serialises for one category with the tool's table. */
  function ShaclSpec(cat: string, catData: Category, linkRepro: string): Result<Graph>
  {
    ShaclGraph(Creator(DataTypeMap()), cat, catData, linkRepro)
  }

  /** `g` links the category shape to `p`, a required, single property
      ordered `k` whose values must conform to `node`. */
  predicate HasRootProperty(g: Graph, catShape: Term, p: Term, k: int, node: Term)
  {
    Triple(catShape, ShProperty, p) in g
    && Triple(p, ShMinCount, IntLit(1)) in g && Triple(p, ShMaxCount, IntLit(1)) in g
    && Triple(p, ShOrder, IntLit(k)) in g && Triple(p, ShNode, node) in g
  }

  /** Between the category shape's first and last triple, the root
      properties keep what `RootPropertyOrders` states of them. */
  lemma RootPropertiesWithin(ns: string, catShape: Term, camel: string -> string, subs: seq<string>, first: Triple, last: Triple, k: nat)
    requires k < |subs|
    ensures var g := [first] + RootProperties(ns, catShape, camel, subs, 0) + [last];
            g[0] == first && HasRootProperty(g, catShape, Blank(k), k, Iri(ns + subs[k] + "Shape"))
  {
    var R := RootProperties(ns, catShape, camel, subs, 0);
    RootPropertyHas(ns, catShape, camel, subs, k);
    HasRootPropertyMiddle([first], R, [last], catShape, Blank(k), k, Iri(ns + subs[k] + "Shape"));
  }

  lemma RootPropertyHas(ns: string, catShape: Term, camel: string -> string, subs: seq<string>, k: nat)
    requires k < |subs|
    ensures HasRootProperty(RootProperties(ns, catShape, camel, subs, 0), catShape, Blank(k), k, Iri(ns + subs[k] + "Shape"))
  {
    RootPropertyOrders(ns, catShape, camel, subs, 0, k);
  }

  /** A root property found in part of a graph is in the whole graph. */
  lemma HasRootPropertyMiddle(a: Graph, m: Graph, b: Graph, catShape: Term, p: Term, k: int, node: Term)
    requires HasRootProperty(m, catShape, p, k, node)
    ensures HasRootProperty(a + m + b, catShape, p, k, node)
  {
  }

  /** Appending keeps every root property already in the graph. */
  lemma PrefixHasRootProperty(g0: Graph, g1: Graph, catShape: Term, p: Term, k: int, node: Term)
    requires g0 <= g1 && HasRootProperty(g0, catShape, p, k, node)
    ensures HasRootProperty(g1, catShape, p, k, node)
  {
    forall t | t in g0
      ensures t in g1
    {
      var i :| 0 <= i < |g0| && g0[i] == t;
      assert g1[i] == t;
    }
  }

  /** The graph `create_shacl` writes begins with the category's node shape,
      which links the k-th sub-category through a required, single root
      property ordered k, pointing at that sub-category's shape. */
  lemma ShaclRootProperties(create: PropertyCreator, cat: string, catData: Category, linkRepro: string, k: nat)
    requires Creates(create) && ShaclGraph(create, cat, catData, linkRepro).Ok?
    requires k < |SubCategoryNames(catData)|
    ensures var g := ShaclGraph(create, cat, catData, linkRepro).value;
            var ns := CategoryNamespace(cat, linkRepro);
            var catShape := Iri(ns + cat + "Shape");
            |g| > 0 && g[0] == Triple(catShape, RdfType, NodeShape)
            && HasRootProperty(g, catShape, Blank(k), k, Iri(ns + SubCategoryNames(catData)[k] + "Shape"))
  {
    var ns := CategoryNamespace(cat, linkRepro);
    var st0 := CategoryShapeState(cat, catData, ns);
    var catShape := Iri(ns + cat + "Shape");
    RootPropertiesWithin(ns, catShape, CamelCase, SubCategoryNames(catData), Triple(catShape, RdfType, NodeShape),
                         Triple(catShape, ShTargetClass, Iri(ns + cat)), k);
    var st1 := SubShapesFrom(create, st0, ns, catData, 0).value;
    SubShapesFromGrows(create, st0, ns, catData, 0, st1);
    StructureShapes(create, st1, ns, st1.used, 0);
    var g := StructureFrom(create, st1, ns, st1.used, 0).graph;
    PrefixHasRootProperty(st0.graph, g, Iri(ns + cat + "Shape"), Blank(k), k, Iri(ns + SubCategoryNames(catData)[k] + "Shape"));
    assert g[0] == st0.graph[0];
  }

  /** The graph under construction, with the blank-node counter and the set
      of used data type nodes that the source keeps as a module global. */
  lemma AppendRegroup3<T>(g: seq<T>, a: seq<T>, b: seq<T>, c: seq<T>)
    ensures g + a + b + c == g + (a + b + c)
  {
  }

  lemma AppendRegroup4<T>(g: seq<T>, a: seq<T>, b: seq<T>, c: seq<T>, d: seq<T>)
    ensures g + a + b + c + d == g + (a + b + c + d)
  {
  }

  class ShaclBuilder {
    const types: TypeTable
    var graph: Graph
    var blanks: nat
    var usedDataTypeNodes: set<string>

    function State(): BuildState
      reads this
    {
      BuildState(graph, blanks, usedDataTypeNodes)
    }

    constructor (types: TypeTable)
      ensures this.types == types && State() == BuildState([], 0, {})
    {
      this.types := types;
      graph := [];
      blanks := 0;
      usedDataTypeNodes := {};
    }

    /** `BNode()`: a blank node not handed out before. */
    method NewBlank() returns (b: Term)
      modifies this
      ensures b == Blank(old(blanks))
      ensures graph == old(graph) && blanks == old(blanks) + 1 && usedDataTypeNodes == old(usedDataTypeNodes)
    {
      b := Blank(blanks);
      blanks := blanks + 1;
    }

    /** `graph.add(t)`. */
    method Add(t: Triple)
      modifies this
      ensures graph == old(graph) + [t] && blanks == old(blanks) && usedDataTypeNodes == old(usedDataTypeNodes)
    {
      graph := graph + [t];
    }

    /** `handle_data_type`; the table's value lists are sorted before use. */
    method HandleDataType(p: Term, ns: string, a: Attrib)
      modifies this
      ensures State() == old(State()).(graph := old(graph) + TypeTriples(types, p, ns, a.dataType),
                                       used := old(usedDataTypeNodes) + NodeTypes(types, a.dataType))
    {
      var entry := Get(types, a.dataType);
      if entry.None? {
        return;
      }
      var info := entry.value;
      ghost var g0 := graph;
      ghost var link := if '#' in info.typ then [Triple(p, ShDatatype, Iri(info.typ))]
                        else [Triple(p, ShNode, Iri(ns + info.typ + "Shape"))];
      ghost var pat := if info.pattern.Some? then [Triple(p, ShPattern, Lit(info.pattern.value))] else [];
      ghost var vals := if info.values.Some? then [Triple(p, ShIn, Lit(InLiteral(SortStrings(info.values.value))))] else [];
      if '#' in info.typ {
        Add(Triple(p, ShDatatype, Iri(info.typ)));
      } else {
        Add(Triple(p, ShNode, Iri(ns + info.typ + "Shape")));
        usedDataTypeNodes := usedDataTypeNodes + {a.dataType};
      }
      assert graph == g0 + link;
      if info.pattern.Some? {
        Add(Triple(p, ShPattern, Lit(info.pattern.value)));
      }
      assert graph == g0 + link + pat;
      if info.values.Some? {
        var sorted := SortStrings(info.values.value);
        Add(Triple(p, ShIn, Lit(InLiteral(sorted))));
      }
      assert graph == g0 + link + pat + vals;
      AppendRegroup3(g0, link, pat, vals);
      assert TypeTriples(types, p, ns, a.dataType) == link + pat + vals;
    }

    /** The link, data type and path triples of `create_property`. */
    method AddPropertyHead(shape: Term, p: Term, ns: string, a: Attrib)
      modifies this
      ensures State() == old(State()).(graph := old(graph) + PropertyHead(types, shape, p, ns, a),
                                       used := old(usedDataTypeNodes) + NodeTypes(types, a.dataType))
    {
      Add(Triple(shape, ShProperty, p));
      HandleDataType(p, ns, a);
      Add(Triple(p, ShPath, Iri(ns + a.name)));
    }

    /** The sh:minCount and sh:maxCount triples of `create_property`. */
    method AddCounts(p: Term, a: Attrib)
      modifies this
      ensures State() == old(State()).(graph := old(graph) + CountTriples(p, a))
    {
      ghost var g0 := graph;
      ghost var mn := if a.frequencyMin.Some? && a.frequencyMin.value != 1 then [Triple(p, ShMinCount, IntLit(a.frequencyMin.value))] else [];
      ghost var mx := if a.frequencyMax.Some? then [Triple(p, ShMaxCount, IntLit(a.frequencyMax.value))] else [];
      ghost var df := if a.frequencyMax.None? && a.frequencyMin.None? then [Triple(p, ShMaxCount, IntLit(1))] else [];
      if a.frequencyMin.Some? && a.frequencyMin.value != 1 {
        Add(Triple(p, ShMinCount, IntLit(a.frequencyMin.value)));
      }
      assert graph == g0 + mn;
      if a.frequencyMax.Some? {
        Add(Triple(p, ShMaxCount, IntLit(a.frequencyMax.value)));
      }
      assert graph == g0 + mn + mx;
      if a.frequencyMax.None? && a.frequencyMin.None? {
        Add(Triple(p, ShMaxCount, IntLit(1)));
      }
      assert graph == g0 + mn + mx + df;
      AppendRegroup3(g0, mn, mx, df);
    }

    /** The example, message, name, description and order triples of `create_property`. */
    method AddPropertyTail(p: Term, a: Attrib, order: int)
      modifies this
      ensures State() == old(State()).(graph := old(graph) + PropertyTail(p, a, order))
    {
      ghost var g0 := graph;
      ghost var ex := if a.example.Some? then [Triple(p, SkosExample, Lit(a.example.value))] else [];
      ghost var names := [Triple(p, ShMessage, LangLit("Validation of " + a.name + " failed!", "en")),
                          Triple(p, ShName, LangLit(a.name, "en"))];
      ghost var desc := if a.description.Some? then [Triple(p, ShDescription, LangLit(a.description.value, "en"))] else [];
      if a.example.Some? {
        Add(Triple(p, SkosExample, Lit(a.example.value)));
      }
      assert graph == g0 + ex;
      Add(Triple(p, ShMessage, LangLit("Validation of " + a.name + " failed!", "en")));
      Add(Triple(p, ShName, LangLit(a.name, "en")));
      assert graph == g0 + ex + names;
      if a.description.Some? {
        Add(Triple(p, ShDescription, LangLit(a.description.value, "en")));
      }
      assert graph == g0 + ex + names + desc;
      Add(Triple(p, ShOrder, IntLit(order)));
      AppendRegroup4(g0, ex, names, desc, [Triple(p, ShOrder, IntLit(order))]);
    }

    /** `create_property`. */
    method CreateProperty(shape: Term, ns: string, a: Attrib, order: int)
      modifies this
      ensures State() == PropertyStep(types, old(State()), shape, ns, a, order)
    {
      ghost var g0 := graph;
      var p := NewBlank();
      AddPropertyHead(shape, p, ns, a);
      AddCounts(p, a);
      AddPropertyTail(p, a, order);
      ghost var h, c, t := PropertyHead(types, shape, p, ns, a), CountTriples(p, a), PropertyTail(p, a, order);
      assert graph == g0 + h + c + t;
      AppendRegroup3(g0, h, c, t);
    }

    /** The six triples of one root property. */
    method AddRootProperty(ns: string, catShape: Term, sub: string, order: int)
      modifies this
      ensures graph == old(graph) + RootProperty(ns, catShape, sub, CamelCase(sub), Blank(old(blanks)), order)
      ensures blanks == old(blanks) + 1 && usedDataTypeNodes == old(usedDataTypeNodes)
    {
      ghost var g0 := graph;
      var p := NewBlank();
      var camel := ToCamelCase(sub);
      Add(Triple(catShape, ShProperty, p));
      Add(Triple(p, ShMinCount, IntLit(1)));
      Add(Triple(p, ShMaxCount, IntLit(1)));
      Add(Triple(p, ShPath, Iri(ns + camel)));
      Add(Triple(p, ShNode, Iri(ns + sub + "Shape")));
      Add(Triple(p, ShOrder, IntLit(order)));
      assert graph == g0 + RootProperty(ns, catShape, sub, camel, p, order);
    }

    /** The first loop of `create_shacl`: one root property per sub-category,
        counted by `order_cat`. */
    method AddRootProperties(ns: string, catShape: Term, catData: Category)
      modifies this
      ensures graph == old(graph) + RootProperties(ns, catShape, CamelCase, SubCategoryNames(catData), old(blanks))
      ensures blanks == old(blanks) + |SubCategoryNames(catData)| && usedDataTypeNodes == old(usedDataTypeNodes)
    {
      var orderCat := 0;
      ghost var subs: seq<string> := [];
      for i := 0 to |catData|
        invariant subs == SubCategoryNames(catData[..i]) && orderCat == |subs|
        invariant graph == old(graph) + RootProperties(ns, catShape, CamelCase, subs, old(blanks))
        invariant blanks == old(blanks) + orderCat && usedDataTypeNodes == old(usedDataTypeNodes)
      {
        SubCategoryNamesStep(catData, i);
        var sub := catData[i].0;
        if sub == CategoryDataKey {
          continue;
        }
        RootPropertiesSnoc(ns, catShape, CamelCase, subs, sub, old(blanks));
        ghost var prev := RootProperties(ns, catShape, CamelCase, subs, old(blanks));
        ghost var added := RootProperty(ns, catShape, sub, CamelCase(sub), Blank(blanks), orderCat);
        AddRootProperty(ns, catShape, sub, orderCat);
        assert graph == (old(graph) + prev) + added;
        AppendAssoc(old(graph), prev, added);
        subs := subs + [sub];
        orderCat := orderCat + 1;
      }
      assert catData[..|catData|] == catData;
    }

    /** The properties of one sub-category, counted by `order_property`. */
    method AddRows(shape: Term, ns: string, rows: SubCategory) returns (r: Result<()>)
      modifies this
      ensures r.Ok? <==> RowsFrom(Creator(types), old(State()), shape, ns, rows, 0).Ok?
      ensures r.Ok? ==> State() == RowsFrom(Creator(types), old(State()), shape, ns, rows, 0).value
      ensures r.Err? ==> r.error == RowsFrom(Creator(types), old(State()), shape, ns, rows, 0).error
    {
      for i := 0 to |rows|
        invariant RowsFrom(Creator(types), State(), shape, ns, rows, i) == RowsFrom(Creator(types), old(State()), shape, ns, rows, 0)
      {
        RowsFromNext(types, State(), shape, ns, rows, i);
        match rows[i].1
        case Text(_) =>
          return Err(TypeError("string indices must be integers"));
        case Row(a) =>
          CreateProperty(shape, ns, a, i);
      }
      return Ok(());
    }

    /** The second loop of `create_shacl`: a node shape per sub-category. */
    method AddSubShapes(ns: string, catData: Category) returns (r: Result<()>)
      modifies this
      ensures r.Ok? <==> SubShapesFrom(Creator(types), old(State()), ns, catData, 0).Ok?
      ensures r.Ok? ==> State() == SubShapesFrom(Creator(types), old(State()), ns, catData, 0).value
      ensures r.Err? ==> r.error == SubShapesFrom(Creator(types), old(State()), ns, catData, 0).error
    {
      for i := 0 to |catData|
        invariant SubShapesFrom(Creator(types), State(), ns, catData, i) == SubShapesFrom(Creator(types), old(State()), ns, catData, 0)
      {
        var sub := catData[i].0;
        if sub == CategoryDataKey {
          continue;
        }
        var shape := Iri(ns + sub + "Shape");
        ghost var st := State();
        Add(Triple(shape, RdfType, NodeShape));
        var ok := AddRows(shape, ns, catData[i].1);
        if ok.Err? {
          assert SubShape(Creator(types), st, ns, sub, catData[i].1) == Err(ok.error);
          return ok;
        }
        Add(Triple(shape, ShTargetClass, Iri(ns + sub)));
        assert SubShape(Creator(types), st, ns, sub, catData[i].1) == Ok(State());
      }
      return Ok(());
    }

    /** One built-in node shape. */
    method AddBuiltinShape(ns: string, name: string, props: seq<BuiltinProp>)
      modifies this
      ensures State() == BuiltinShapeStep(Creator(types), old(State()), ns, name, props)
    {
      var shape := Iri(ns + name + "Shape");
      Add(Triple(shape, RdfType, NodeShape));
      Add(Triple(shape, ShTargetClass, Iri(ns + name)));
      assert State() == old(State()).(graph := old(graph) + [Triple(shape, RdfType, NodeShape), Triple(shape, ShTargetClass, Iri(ns + name))]);
      for i := 0 to |props|
        invariant BuiltinPropsFrom(Creator(types), State(), shape, ns, props, i) == BuiltinShapeStep(Creator(types), old(State()), ns, name, props)
      {
        CreateProperty(shape, ns, BuiltinRow(props[i]), props[i].order);
      }
    }

    /** `create_data_structure` followed by the clearing of the used set. */
    method CreateDataStructure(ns: string)
      modifies this
      ensures graph == StructureFrom(Creator(types), old(State()), ns, old(usedDataTypeNodes), 0).graph
      ensures usedDataTypeNodes == {}
    {
      ghost var st0 := State();
      var used := usedDataTypeNodes;
      for i := 0 to |StructureOrder|
        invariant StructureFrom(Creator(types), State(), ns, used, i) == StructureFrom(Creator(types), st0, ns, used, 0)
      {
        var key := StructureOrder[i];
        if key in used {
          var shape := BuiltinShape(key).value;
          AddBuiltinShape(ns, shape.0, shape.1);
        }
      }
      usedDataTypeNodes := {};
    }
  }

  /** `create_shacl` for one category, without writing the file. */
  method CreateShacl(cat: string, catData: Category, linkRepro: string) returns (r: Result<Graph>)
    ensures r == ShaclSpec(cat, catData, linkRepro)
  {
    var ns := CategoryNamespace(cat, linkRepro);
    var b := new ShaclBuilder(DataTypeMap());
    var catShape := Iri(ns + cat + "Shape");
    b.Add(Triple(catShape, RdfType, NodeShape));
    b.AddRootProperties(ns, catShape, catData);
    b.Add(Triple(catShape, ShTargetClass, Iri(ns + cat)));
    assert b.State() == CategoryShapeState(cat, catData, ns);
    var ok := b.AddSubShapes(ns, catData);
    if ok.Err? {
      return Err(ok.error);
    }
    b.CreateDataStructure(ns);
    return Ok(b.graph);
  }
}

/**
 * The 3D-model statistics extractor
 * (meta_data_extractor/3dModel/extract_3dmodel.py): `get_meta_data` copies
 * the `project`, `data` and `quantity` sections of the statistics file into
 * the attribute dict it is handed, and `extract_meta_data` wraps that dict
 * in the record it returns.
 *
 * Reading the file is not modelled: the parsed JSON value is a parameter,
 * and so is the uuid `create_uuid` draws.
 */
module Model3dExtract {
  import opened Wrappers
  import opened ODict
  import opened PyStr
  import opened JsonValue

  /** A section of the statistics file: the key it is read from, the
      attribute it becomes, and its (attribute, source key) pairs. */
  datatype Section = Section(key: string, target: string, fields: seq<(string, string)>)

  const ProjectSection := Section("project", "environment-model:project",
    [("environment-model:creationSource", "creation_source"),
     ("environment-model:creationVersion", "creation_version")])

  const DataSection := Section("data", "environment-model:format",
    [("environment-model:formatType", "format")])

  const QuantitySection := Section("quantity", "environment-model:quantity",
    [("environment-model:geometryCount", "geometry_count"),
     ("environment-model:triangleCount", "triangle_count"),
     ("environment-model:textureMaterialCount", "texture_material_count")])

  /** The sections in the order `get_meta_data` handles them. */
  const Sections := [ProjectSection, DataSection, QuantitySection]

  /** The attribute names of a section's pairs, in order. */
  function Names(fields: seq<(string, string)>): (r: seq<string>)
    ensures |r| == |fields| && forall i :: 0 <= i < |fields| ==> r[i] == fields[i].0
  {
    seq(|fields|, i requires 0 <= i < |fields| => fields[i].0)
  }

  predicate DistinctNames(fields: seq<(string, string)>)
  {
    forall i, j :: 0 <= i < j < |fields| ==> fields[i].0 != fields[j].0
  }

  /** `sub[key]` as a function of the key. */
  function Lookup(sub: Json): string -> Result<Json>
  {
    key => Index(sub, key)
  }

  /** The dict a present section becomes: a new dict with each attribute
      set to the value `lookup` finds for its source key, in order; the first
      failing lookup raises. Every section names each attribute once
      (`SectionsDistinct`), so each assignment adds its key at the end. */
  function SectionDict(lookup: string -> Result<Json>, fields: seq<(string, string)>): (r: Result<Dict<Json>>)
    ensures r.Ok? <==> forall i :: 0 <= i < |fields| ==> lookup(fields[i].1).Ok?
    ensures r.Ok? ==> |r.value| == |fields|
    ensures r.Ok? ==> forall i :: 0 <= i < |fields| ==> r.value[i] == (fields[i].0, lookup(fields[i].1).value)
    decreases |fields|
  {
    if |fields| == 0 then Ok([])
    else
      var n := |fields| - 1;
      assert forall i :: 0 <= i < n ==> fields[..n][i] == fields[i];
      var d :- SectionDict(lookup, fields[..n]);
      var v :- lookup(fields[n].1);
      Ok(d + [(fields[n].0, v)])
  }

  /** The dict holds the section's attribute names in order, and with
      distinct names each attribute holds the value found for its source key. */
  lemma SectionDictEntries(lookup: string -> Result<Json>, fields: seq<(string, string)>, i: nat)
    requires SectionDict(lookup, fields).Ok? && DistinctNames(fields) && i < |fields|
    ensures Keys(SectionDict(lookup, fields).value) == Names(fields)
    ensures Get(SectionDict(lookup, fields).value, fields[i].0) == Some(lookup(fields[i].1).value)
  {
    var d := SectionDict(lookup, fields).value;
    assert d[i] == (fields[i].0, lookup(fields[i].1).value);
    UniqueGet(d, i);
  }

  /** Whether a section is present: `key in file_data`. */
  predicate IsPresent(fileData: Json, s: Section)
  {
    In(s.key, fileData) == Ok(true)
  }

  /** One `if key in file_data:` block: the attributes after it, or what it raises. */
  function FillSection(d: Dict<Json>, fileData: Json, s: Section): (r: Result<Dict<Json>>)
    ensures r.Ok? && !IsPresent(fileData, s) ==> r.value == d
    ensures r.Ok? && IsPresent(fileData, s) ==>
              Index(fileData, s.key).Ok? && SectionDict(Lookup(Index(fileData, s.key).value), s.fields).Ok?
              && r.value == Put(d, s.target, JObj(SectionDict(Lookup(Index(fileData, s.key).value), s.fields).value))
  {
    var present :- In(s.key, fileData);
    if !present then Ok(d)
    else
      var sub :- Index(fileData, s.key);
      var fields :- SectionDict(Lookup(sub), s.fields);
      Ok(Put(d, s.target, JObj(fields)))
  }

  /** The attributes after the blocks, and the exception one of them raised. */
  datatype Filled = Filled(attributes: Dict<Json>, raised: Option<PyError>)

  /** The blocks one after the other: the first that raises stops the rest,
      and what the earlier ones wrote stays. */
  function FillAll(d: Dict<Json>, fileData: Json, ss: seq<Section>): Filled
    decreases |ss|
  {
    if |ss| == 0 then Filled(d, None)
    else
      match FillSection(d, fileData, ss[0])
      case Err(e) => Filled(d, Some(e))
      case Ok(d1) => FillAll(d1, fileData, ss[1..])
  }

  /** The targets of the present sections, in order. */
  function PresentTargets(fileData: Json, ss: seq<Section>): (r: seq<string>)
    ensures forall t :: t in r ==> exists s :: s in ss && t == s.target
  {
    if |ss| == 0 then []
    else
      assert forall s :: s in ss[1..] ==> s in ss;
      (if IsPresent(fileData, ss[0]) then [ss[0].target] else []) + PresentTargets(fileData, ss[1..])
  }

  predicate DistinctTargets(ss: seq<Section>)
  {
    forall i, j :: 0 <= i < j < |ss| ==> ss[i].target != ss[j].target
  }

  /** The sections after the first have distinct targets, none of them the first's. */
  lemma RestTargets(ss: seq<Section>)
    requires |ss| > 0 && DistinctTargets(ss)
    ensures DistinctTargets(ss[1..])
    ensures forall x :: x in ss[1..] ==> x.target != ss[0].target
  {
    var rest := ss[1..];
    forall i, j | 0 <= i < j < |rest| ensures rest[i].target != rest[j].target {
      assert rest[i] == ss[i + 1] && rest[j] == ss[j + 1];
    }
    forall x | x in rest ensures x.target != ss[0].target {
      var j :| 0 <= j < |rest| && rest[j] == x;
      assert ss[j + 1] == x;
    }
  }

  /** The first block either raises, which stops the rest, or hands its
      result to the rest. */
  lemma FillAllCons(d: Dict<Json>, fileData: Json, ss: seq<Section>)
    requires |ss| > 0
    ensures FillSection(d, fileData, ss[0]).Err? ==> FillAll(d, fileData, ss) == Filled(d, Some(FillSection(d, fileData, ss[0]).error))
    ensures FillSection(d, fileData, ss[0]).Ok? ==> FillAll(d, fileData, ss) == FillAll(FillSection(d, fileData, ss[0]).value, fileData, ss[1..])
  {
  }

  /** When the first block does not raise, the rest start from what it wrote. */
  lemma FillAllStep(d: Dict<Json>, fileData: Json, ss: seq<Section>)
    requires |ss| > 0 && FillAll(d, fileData, ss).raised.None?
    ensures FillSection(d, fileData, ss[0]).Ok?
    ensures FillAll(d, fileData, ss) == FillAll(FillSection(d, fileData, ss[0]).value, fileData, ss[1..])
  {
  }

  lemma AppendRegroup<T>(a: seq<T>, b: seq<T>, c: seq<T>)
    ensures a + b + c == a + (b + c)
  {
  }

  /** A block that does not raise adds its target when its section is
      present and the target is new, and otherwise keeps the keys. */
  lemma FillSectionKeys(d: Dict<Json>, fileData: Json, s: Section)
    requires FillSection(d, fileData, s).Ok? && s.target !in Keys(d)
    ensures Keys(FillSection(d, fileData, s).value) == Keys(d) + if IsPresent(fileData, s) then [s.target] else []
  {
    if IsPresent(fileData, s) {
      PutKeys(d, s.target, JObj(SectionDict(Lookup(Index(fileData, s.key).value), s.fields).value));
    }
  }

  /** When no block raises and the targets are new and distinct, the
      attributes gain exactly the targets of the present sections, in order. */
  lemma {:induction false} FillAllKeys(d: Dict<Json>, fileData: Json, ss: seq<Section>)
    requires FillAll(d, fileData, ss).raised.None?
    requires DistinctTargets(ss) && forall s :: s in ss ==> s.target !in Keys(d)
    ensures Keys(FillAll(d, fileData, ss).attributes) == Keys(d) + PresentTargets(fileData, ss)
    decreases |ss|
  {
    if |ss| > 0 {
      var s := ss[0];
      var rest := ss[1..];
      FillAllStep(d, fileData, ss);
      var d1 := FillSection(d, fileData, s).value;
      var added := if IsPresent(fileData, s) then [s.target] else [];
      FillSectionKeys(d, fileData, s);
      RestTargets(ss);
      assert forall x :: x in rest ==> x.target !in Keys(d1) by {
        assert forall x :: x in rest ==> x in ss;
      }
      FillAllKeys(d1, fileData, rest);
      assert PresentTargets(fileData, ss) == added + PresentTargets(fileData, rest);
      AppendRegroup(Keys(d), added, PresentTargets(fileData, rest));
    }
  }

  /** A key that no remaining section targets keeps its value. */
  lemma {:induction false} FillAllKeeps(d: Dict<Json>, fileData: Json, ss: seq<Section>, k: string)
    requires forall s :: s in ss ==> s.target != k
    ensures Get(FillAll(d, fileData, ss).attributes, k) == Get(d, k)
    decreases |ss|
  {
    if |ss| > 0 {
      assert forall x :: x in ss[1..] ==> x in ss;
      match FillSection(d, fileData, ss[0])
      case Err(_) =>
      case Ok(d1) =>
        FillAllKeeps(d1, fileData, ss[1..], k);
    }
  }

  /** What a block leaves at its target: the dict built from a present
      section, or the value from before for an absent one. */
  predicate SectionWritten(before: Dict<Json>, after: Dict<Json>, fileData: Json, s: Section)
  {
    if IsPresent(fileData, s) then
      Index(fileData, s.key).Ok? && SectionDict(Lookup(Index(fileData, s.key).value), s.fields).Ok?
      && Get(after, s.target) == Some(JObj(SectionDict(Lookup(Index(fileData, s.key).value), s.fields).value))
    else Get(after, s.target) == Get(before, s.target)
  }

  /** A block that does not raise writes its own target and no other key. */
  lemma FillSectionWritten(d: Dict<Json>, fileData: Json, s: Section)
    requires FillSection(d, fileData, s).Ok?
    ensures SectionWritten(d, FillSection(d, fileData, s).value, fileData, s)
    ensures forall k :: k != s.target ==> Get(FillSection(d, fileData, s).value, k) == Get(d, k)
  {
  }

  /** When no block raises and the targets are distinct, each section's
      target ends up as that section's block left it. */
  lemma {:induction false} FillAllGet(d: Dict<Json>, fileData: Json, ss: seq<Section>, i: nat)
    requires FillAll(d, fileData, ss).raised.None?
    requires DistinctTargets(ss) && i < |ss|
    ensures SectionWritten(d, FillAll(d, fileData, ss).attributes, fileData, ss[i])
    decreases i
  {
    if i == 0 {
      FillAllGetFirst(d, fileData, ss);
    } else {
      var rest := ss[1..];
      FillAllStep(d, fileData, ss);
      var d1 := FillSection(d, fileData, ss[0]).value;
      assert ss[i].target != ss[0].target;
      assert Get(d1, ss[i].target) == Get(d, ss[i].target) by {
        FillSectionWritten(d, fileData, ss[0]);
      }
      assert rest[i - 1] == ss[i];
      assert DistinctTargets(rest) by { RestTargets(ss); }
      FillAllGet(d1, fileData, rest, i - 1);
      WrittenEarlier(d, d1, FillAll(d1, fileData, rest).attributes, fileData, ss[i]);
    }
  }

  /** The first section's target is not touched by the later blocks. */
  lemma FillAllGetFirst(d: Dict<Json>, fileData: Json, ss: seq<Section>)
    requires FillAll(d, fileData, ss).raised.None?
    requires DistinctTargets(ss) && |ss| > 0
    ensures SectionWritten(d, FillAll(d, fileData, ss).attributes, fileData, ss[0])
  {
    FillAllStep(d, fileData, ss);
    var d1 := FillSection(d, fileData, ss[0]).value;
    FillSectionWritten(d, fileData, ss[0]);
    RestTargets(ss);
    FillAllKeeps(d1, fileData, ss[1..], ss[0].target);
    WrittenLater(d, d1, FillAll(d1, fileData, ss[1..]).attributes, fileData, ss[0]);
  }

  /** Only the target's value matters to what a block left. */
  lemma WrittenLater(before: Dict<Json>, mid: Dict<Json>, after: Dict<Json>, fileData: Json, s: Section)
    requires SectionWritten(before, mid, fileData, s) && Get(after, s.target) == Get(mid, s.target)
    ensures SectionWritten(before, after, fileData, s)
  {
  }

  lemma WrittenEarlier(before: Dict<Json>, mid: Dict<Json>, after: Dict<Json>, fileData: Json, s: Section)
    requires SectionWritten(mid, after, fileData, s) && Get(mid, s.target) == Get(before, s.target)
    ensures SectionWritten(before, after, fileData, s)
  {
  }

  /** The attribute dict `get_meta_data` fills in place. */
  class Attributes {
    var entries: Dict<Json>

    constructor ()
      ensures entries == []
    {
      entries := [];
    }

    /** One `if key in file_data:` block. */
    method AddSection(fileData: Json, s: Section) returns (r: Result<()>)
      modifies this
      ensures FillSection(old(entries), fileData, s).Ok? ==> r == Ok(()) && entries == FillSection(old(entries), fileData, s).value
      ensures FillSection(old(entries), fileData, s).Err? ==> r == Err(FillSection(old(entries), fileData, s).error) && entries == old(entries)
    {
      var present :- In(s.key, fileData);
      if present {
        var sub :- Index(fileData, s.key);
        var section :- SectionDict(Lookup(sub), s.fields);
        entries := Put(entries, s.target, JObj(section));
      }
      return Ok(());
    }

    /** `get_meta_data(file_data, attributes)`: the project, data and
        quantity blocks in turn; an exception leaves what was written before it. */
    method GetMetaData(fileData: Json) returns (r: Result<()>)
      modifies this
      ensures entries == FillAll(old(entries), fileData, Sections).attributes
      ensures r.Err? <==> FillAll(old(entries), fileData, Sections).raised.Some?
      ensures r.Err? ==> r.error == FillAll(old(entries), fileData, Sections).raised.value
    {
      ghost var d0 := entries;
      FillAllCons(d0, fileData, Sections);
      r := AddSection(fileData, ProjectSection);
      if r.Err? {
        return;
      }
      ghost var d1 := entries;
      assert Sections[1..] == [DataSection, QuantitySection];
      FillAllCons(d1, fileData, Sections[1..]);
      r := AddSection(fileData, DataSection);
      if r.Err? {
        return;
      }
      ghost var d2 := entries;
      assert Sections[1..][1..] == [QuantitySection];
      FillAllCons(d2, fileData, Sections[1..][1..]);
      r := AddSection(fileData, QuantitySection);
      assert Sections[1..][1..][1..] == [];
    }
  }

  // ------------------------------------------------------ extract_meta_data

  const Version := "v4"
  const SchemaName := "environmentModel"
  /** `get_schema_name().lower()`. */
  const SchemaNameLower := "environmentmodel"
  const Namespace := "https://ontologies.envited-x.net/environment-model/" + Version + "/ontology"
  const DidPrefix := "did:web:registry.gaia-x.eu:EnvironmentModel:"

  /** The record `extract_meta_data` returns: the did, the SHACL shape
      type and the attributes under the namespace key. */
  function Record(uuid: string, attributes: Dict<Json>): (r: Dict<Json>)
    ensures Keys(r) == ["did", "shacl_type", Namespace + ":" + SchemaNameLower]
    ensures Get(r, "did") == Some(JStr(DidPrefix + uuid))
    ensures Get(r, Namespace + ":" + SchemaNameLower) == Some(JObj(attributes))
  {
    [("did", JStr(DidPrefix + uuid)),
     ("shacl_type", JStr(SchemaNameLower + "::" + Namespace + "#" + SchemaName + "Shape")),
     (Namespace + ":" + SchemaNameLower, JObj(attributes))]
  }

  /** `extract_meta_data` after the file is read: None stands for the
      `False` returned when `get_meta_data` raises. */
  method ExtractMetaData(fileData: Json, uuid: string) returns (r: Option<Dict<Json>>)
    ensures r.None? <==> FillAll([], fileData, Sections).raised.Some?
    ensures r.Some? ==> r.value == Record(uuid, FillAll([], fileData, Sections).attributes)
  {
    var attributes := new Attributes();
    var outcome := attributes.GetMetaData(fileData);
    if outcome.Err? {
      return None;
    }
    return Some(Record(uuid, attributes.entries));
  }

  /** The section targets are distinct, so each block writes its own key. */
  lemma SectionsDistinct()
    ensures DistinctTargets(Sections)
    ensures forall s :: s in Sections ==> DistinctNames(s.fields)
  {
  }

  /** What a successful `get_meta_data` on an empty dict writes: exactly the
      targets of the present sections, in the order project, format,
      quantity; each holds the dict built from its section of the file, and
      an absent section adds nothing. */
  lemma MetaDataEntries(fileData: Json)
    requires FillAll([], fileData, Sections).raised.None?
    ensures Keys(FillAll([], fileData, Sections).attributes) == PresentTargets(fileData, Sections)
    ensures forall i :: 0 <= i < |Sections| && !IsPresent(fileData, Sections[i]) ==>
              Get(FillAll([], fileData, Sections).attributes, Sections[i].target).None?
    ensures forall i :: 0 <= i < |Sections| && IsPresent(fileData, Sections[i]) ==>
              Index(fileData, Sections[i].key).Ok?
              && SectionDict(Lookup(Index(fileData, Sections[i].key).value), Sections[i].fields).Ok?
              && Get(FillAll([], fileData, Sections).attributes, Sections[i].target)
                 == Some(JObj(SectionDict(Lookup(Index(fileData, Sections[i].key).value), Sections[i].fields).value))
  {
    SectionsDistinct();
    assert Keys<Json>([]) == [];
    FillAllKeys([], fileData, Sections);
    forall i | 0 <= i < |Sections|
      ensures !IsPresent(fileData, Sections[i]) ==> Get(FillAll([], fileData, Sections).attributes, Sections[i].target).None?
      ensures IsPresent(fileData, Sections[i]) ==>
              Index(fileData, Sections[i].key).Ok?
              && SectionDict(Lookup(Index(fileData, Sections[i].key).value), Sections[i].fields).Ok?
              && Get(FillAll([], fileData, Sections).attributes, Sections[i].target)
                 == Some(JObj(SectionDict(Lookup(Index(fileData, Sections[i].key).value), Sections[i].fields).value))
    {
      FillAllGet([], fileData, Sections, i);
    }
  }
}

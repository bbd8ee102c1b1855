/**
 * `asset_reducer`: reduces an XML asset to the nodes and attributes a
 * mapping table names. Each element becomes `{tag: data}`, where `data`
 * holds the mapped attributes, optionally the minimum and maximum of the
 * `a` attribute over some children, the results of the children grouped
 * by tag into lists, and for a header's geoReference its text.
 */
module AssetReducer {
  import opened Wrappers
  import opened ODict
  import opened PyStr
  import opened PyMinMax
  import opened JsonValue
  import opened XmlTree

  /** What `calcExtrema` returns for an element: `{}` when no child
      matches, else `{'min': .., 'max': ..}`. */
  datatype Extrema = NoChildren | Range(min: real, max: real)

  /** `float(child.get('a', 0))`: a missing attribute counts as 0. */
  function AValue(child: Element): Result<real>
  {
    match Get(child.attrib, "a")
    case None => Ok(0.0)
    case Some(s) => Float(s)
  }

  /** `f` applied to each child in order; the first failure is raised. */
  function MapValues(children: seq<Element>, f: Element -> Result<real>): (r: Result<seq<real>>)
    ensures r.Ok? ==> |r.value| == |children|
  {
    if |children| == 0 then Ok([])
    else
      var pre :- MapValues(children[..|children| - 1], f);
      var v :- f(children[|children| - 1]);
      Ok(pre + [v])
  }

  lemma {:induction false} MapValuesPointwise(children: seq<Element>, f: Element -> Result<real>)
    requires MapValues(children, f).Ok?
    ensures forall i :: 0 <= i < |children| ==> f(children[i]) == Ok(MapValues(children, f).value[i])
  {
    if |children| > 0 {
      var n := |children| - 1;
      MapValuesPointwise(children[..n], f);
      assert forall i :: 0 <= i < n ==> children[..n][i] == children[i];
    }
  }

  /** One more child: its value is appended, or its failure is the
      failure of the whole list. */
  lemma MapValuesNext(children: seq<Element>, f: Element -> Result<real>, i: nat)
    requires i < |children| && MapValues(children[..i], f).Ok?
    ensures f(children[i]).Ok? ==>
              MapValues(children[..i + 1], f) == Ok(MapValues(children[..i], f).value + [f(children[i]).value])
    ensures f(children[i]).Err? ==> MapValues(children, f) == Err(f(children[i]).error)
  {
    assert children[..i + 1][..i] == children[..i];
    if f(children[i]).Err? {
      MapValuesErrPrefix(children, f, i + 1);
    }
  }

  /** A failure on a prefix is the failure of the whole list. */
  lemma {:induction false} MapValuesErrPrefix(children: seq<Element>, f: Element -> Result<real>, n: nat)
    requires n <= |children| && MapValues(children[..n], f).Err?
    ensures MapValues(children, f) == MapValues(children[..n], f)
  {
    if n < |children| {
      var m := |children| - 1;
      assert children[..m][..n] == children[..n];
      MapValuesErrPrefix(children[..m], f, n);
    } else {
      assert children[..n] == children;
    }
  }

  /** The `a` values of the children, in order. */
  function AValues(children: seq<Element>): Result<seq<real>>
  {
    MapValues(children, AValue)
  }

  /** What `calcExtrema(element, nodename)` returns: None for no element. */
  function ExtremaOf(element: Option<Element>, nodename: string): Result<Option<Extrema>>
  {
    match element
    case None => Ok(None)
    case Some(e) =>
      var children := FindAll(e, nodename);
      if |children| == 0 then Ok(Some(NoChildren))
      else
        var vals :- AValues(children);
        Ok(Some(Range(MinOf(vals), MaxOf(vals))))
  }

  /** `calcExtrema` gives {} exactly when the element has no matching
      child; otherwise min <= max, every matching child's `a` value (0 when
      absent) lies between them, and both occur among those values. */
  lemma ExtremaBounds(e: Element, nodename: string)
    requires ExtremaOf(Some(e), nodename).Ok?
    ensures ExtremaOf(Some(e), nodename) == Ok(Some(NoChildren)) <==> FindAll(e, nodename) == []
    ensures ExtremaOf(Some(e), nodename).value.value.Range? ==>
              var r := ExtremaOf(Some(e), nodename).value.value;
              var children := FindAll(e, nodename);
              r.min <= r.max
              && (forall i :: 0 <= i < |children| ==> AValue(children[i]).Ok? && r.min <= AValue(children[i]).value <= r.max)
              && (forall i :: 0 <= i < |children| && "a" !in Keys(children[i].attrib) ==> r.min <= 0.0 <= r.max)
              && (exists i :: 0 <= i < |children| && AValue(children[i]) == Ok(r.min))
              && (exists i :: 0 <= i < |children| && AValue(children[i]) == Ok(r.max))
  {
    var children := FindAll(e, nodename);
    if |children| > 0 {
      ChildrenRange(children);
    }
  }

  /** The smallest and largest `a` values of a non-empty list of children. */
  lemma ChildrenRange(children: seq<Element>)
    requires |children| > 0 && AValues(children).Ok?
    ensures var vals := AValues(children).value;
            var lo, hi := MinOf(vals), MaxOf(vals);
            lo <= hi
            && (forall i :: 0 <= i < |children| ==> AValue(children[i]).Ok? && lo <= AValue(children[i]).value <= hi)
            && (forall i :: 0 <= i < |children| && "a" !in Keys(children[i].attrib) ==> lo <= 0.0 <= hi)
            && (exists i :: 0 <= i < |children| && AValue(children[i]) == Ok(lo))
            && (exists i :: 0 <= i < |children| && AValue(children[i]) == Ok(hi))
  {
    var vals := AValues(children).value;
    MapValuesPointwise(children, AValue);
    MinMaxOf(vals);
    var a :| 0 <= a < |vals| && vals[a] == MinOf(vals);
    var b :| 0 <= b < |vals| && vals[b] == MaxOf(vals);
    assert AValue(children[a]) == Ok(MinOf(vals)) && AValue(children[b]) == Ok(MaxOf(vals));
  }

  /** `calcExtrema`: one pass over the matching children, starting from
      min = inf and max = -inf. */
  method CalcExtrema(element: Option<Element>, nodename: string) returns (r: Result<Option<Extrema>>)
    ensures r == ExtremaOf(element, nodename)
  {
    if element.None? {
      return Ok(None);
    }
    var minValue := PosInf;
    var maxValue := NegInf;
    var children := FindAll(element.value, nodename);
    if |children| == 0 {
      return Ok(Some(NoChildren));
    }
    ghost var vals: seq<real> := [];
    for i := 0 to |children|
      invariant AValues(children[..i]) == Ok(vals)
      invariant minValue == (if i == 0 then PosInf else Fin(MinOf(vals)))
      invariant maxValue == (if i == 0 then NegInf else Fin(MaxOf(vals)))
    {
      MapValuesNext(children, AValue, i);
      var value :- AValue(children[i]);
      if Less(Fin(value), minValue) {
        minValue := Fin(value);
      }
      if Less(maxValue, Fin(value)) {
        maxValue := Fin(value);
      }
      if i > 0 {
        MinMaxSnoc(vals, value);
      }
      vals := vals + [value];
    }
    assert children[..|children|] == children;
    r := Ok(Some(Range(minValue.v, maxValue.v)));
  }

  /** The requested attributes the element has, as `extract_attributes`
      collects them. */
  function AttributesOf(attrib: Dict<string>, attributes: seq<string>): Dict<string>
  {
    if |attributes| == 0 then []
    else
      var d := AttributesOf(attrib, attributes[..|attributes| - 1]);
      var attr := attributes[|attributes| - 1];
      match Get(attrib, attr)
      case None => d
      case Some(v) => Put(d, attr, v)
  }

  /** `extract_attributes` holds exactly the requested attributes the
      element has, each with the element's value. */
  lemma {:induction false} AttributesOfGet(attrib: Dict<string>, attributes: seq<string>, k: string)
    ensures Get(AttributesOf(attrib, attributes), k) == if k in attributes then Get(attrib, k) else None
  {
    if |attributes| > 0 {
      var n := |attributes| - 1;
      AttributesOfGet(attrib, attributes[..n], k);
      assert attributes == attributes[..n] + [attributes[n]];
    }
  }

  method ExtractAttributes(element: Element, attributes: seq<string>) returns (attres: Dict<string>)
    ensures attres == AttributesOf(element.attrib, attributes)
  {
    attres := [];
    for i := 0 to |attributes|
      invariant attres == AttributesOf(element.attrib, attributes[..i])
    {
      var attr := attributes[i];
      assert attributes[..i + 1][..i] == attributes[..i];
      var elementAttr := Get(element.attrib, attr);
      if elementAttr.Some? {
        attres := Put(attres, attr, elementAttr.value);
      }
    }
    assert attributes[..|attributes|] == attributes;
  }

  /** `extract_attributes` never repeats a key. */
  lemma {:induction false} AttributesOfUnique(attrib: Dict<string>, attributes: seq<string>)
    ensures UniqueKeys(AttributesOf(attrib, attributes))
  {
    if |attributes| > 0 {
      var n := |attributes| - 1;
      AttributesOfUnique(attrib, attributes[..n]);
      var v := Get(attrib, attributes[n]);
      if v.Some? {
        PutUnique(AttributesOf(attrib, attributes[..n]), attributes[n], v.value);
      }
    }
  }

  /** One entry of the mapping table: the attributes to keep and the
      function to apply, as the list `[name, argument]`. */
  datatype TagMapping = TagMapping(attributes: Option<seq<string>>, func: Option<seq<string>>)

  type Mapping = Dict<TagMapping>

  /** The `a` range a mapping entry asks for: the function is
      `['calcExtrema', nodename, ..]` and some child is named `nodename`. */
  function CalcRange(e: Element, tm: TagMapping): Option<(real, real)>
  {
    if tm.func.Some? && |tm.func.value| >= 2 && tm.func.value[0] == "calcExtrema" then
      var x := ExtremaOf(Some(e), tm.func.value[1]);
      if x.Ok? && x.value.Some? && x.value.value.Range? then Some((x.value.value.min, x.value.value.max)) else None
    else None
  }

  /** `node_data` after copying the listed attributes the element has. */
  function AttributeData(e: Element, tm: TagMapping): Dict<Json>
  {
    if tm.attributes.Some? then Update([], StrObj(AttributesOf(e.attrib, tm.attributes.value))) else []
  }

  /** The copied attributes are exactly the listed ones the element has, as
      strings. */
  lemma AttributeDataGet(e: Element, tm: TagMapping, k: string)
    ensures var a := Get(e.attrib, k);
            Get(AttributeData(e, tm), k)
            == if tm.attributes.Some? && k in tm.attributes.value && a.Some? then Some(JStr(a.value)) else None
  {
    if tm.attributes.Some? {
      var attrs := AttributesOf(e.attrib, tm.attributes.value);
      AttributesOfUnique(e.attrib, tm.attributes.value);
      StrObjUnique(attrs);
      UpdateGet<Json>([], StrObj(attrs), k);
      StrObjGet(attrs, k);
      AttributesOfGet(e.attrib, tm.attributes.value, k);
    }
  }

  /** A mapped element's data: the copied attributes, then `min` and `max`
      when `calcExtrema` finds a range. */
  lemma MappedDataMapped(e: Element, mapping: Mapping, tm: TagMapping)
    requires MappedData(e, mapping).Ok? && Get(mapping, e.tag) == Some(tm)
    ensures var d := AttributeData(e, tm);
            var range := CalcRange(e, tm);
            MappedData(e, mapping).value
            == if range.Some? then Put(Put(d, "min", JNum(range.value.0)), "max", JNum(range.value.1)) else d
  {
  }

  /** `node_data` after the mapping step of `process_element`. */
  function MappedData(e: Element, mapping: Mapping): Result<Dict<Json>>
  {
    match Get(mapping, e.tag)
    case None => Ok([])
    case Some(tm) =>
      var d := AttributeData(e, tm);
      if tm.func.None? then Ok(d)
      else
        var f := tm.func.value;
        if |f| == 0 then Err(IndexError("list index out of range"))
        else if f[0] != "calcExtrema" then Ok(d)
        else if |f| < 2 then Err(IndexError("list index out of range"))
        else
          var v :- ExtremaOf(Some(e), f[1]);
          if v.Some? && v.value.Range? then Ok(Put(Put(d, "min", JNum(v.value.min)), "max", JNum(v.value.max)))
          else Ok(d)
  }

  /** The mapping step fails exactly when the element's entry names a
      function with no name, or `calcExtrema` without a node name, or a
      child's `a` attribute is not a number. */
  lemma MappedDataFails(e: Element, mapping: Mapping)
    ensures MappedData(e, mapping).Err? <==>
              Get(mapping, e.tag).Some? && Get(mapping, e.tag).value.func.Some?
              && var f := Get(mapping, e.tag).value.func.value;
                 |f| == 0 || (f[0] == "calcExtrema" && (|f| < 2 || ExtremaOf(Some(e), f[1]).Err?))
  {
  }

  /** After the mapping step an unmapped element has no data; a mapped one
      holds `min` and `max` of its range when there is one, and otherwise
      exactly the listed attributes the element has, as strings. */
  lemma MappedDataGet(e: Element, mapping: Mapping, k: string)
    requires MappedData(e, mapping).Ok?
    ensures Get(mapping, e.tag).None? ==> MappedData(e, mapping).value == []
    ensures Get(mapping, e.tag).Some? ==>
              var tm := Get(mapping, e.tag).value;
              var range := CalcRange(e, tm);
              var a := Get(e.attrib, k);
              Get(MappedData(e, mapping).value, k)
              == if k == "min" && range.Some? then Some(JNum(range.value.0))
                 else if k == "max" && range.Some? then Some(JNum(range.value.1))
                 else if tm.attributes.Some? && k in tm.attributes.value && a.Some? then Some(JStr(a.value))
                 else None
  {
    if Get(mapping, e.tag).Some? {
      var tm := Get(mapping, e.tag).value;
      AttributeDataGet(e, tm, k);
      MappedDataMapped(e, mapping, tm);
    }
  }

  /** Adding one child result `(key, value)`: `node_data[key]` becomes a list
      on first use and the value is appended; a key already bound to a
      non-list makes `append` fail. */
  function GroupStep(d: Dict<Json>, item: (string, Json)): Result<Dict<Json>>
  {
    match Get(d, item.0)
    case None => Ok(Put(d, item.0, JArr([item.1])))
    case Some(prev) =>
      if prev.JArr? then Ok(Put(d, item.0, JArr(prev.items + [item.1])))
      else Err(AttributeError("object has no attribute 'append'"))
  }

  /** The JSON of an element's text (None becomes null). */
  function TextJson(t: Option<string>): Json
  {
    match t
    case None => JNull
    case Some(s) => JStr(s)
  }

  /** What `process_element(e, mapping)` returns for an element whose parent
      has tag `parentTag`: `{tag: data}` as a pair, or None. */
  function Process(e: Element, mapping: Mapping, parentTag: string): Result<Option<(string, Json)>>
    decreases e, 1
  {
    var d0 :- MappedData(e, mapping);
    var d1 :- Fold(e, mapping, 0, d0);
    var d2 := if e.tag == "geoReference" && parentTag == "header" then Put(d1, "proj4_str", TextJson(e.text)) else d1;
    if |d2| > 0 || e.tag in Keys(mapping) then Ok(Some((e.tag, JObj(d2)))) else Ok(None)
  }

  /** The loop over the children from position `i` on, starting from `d`. */
  function Fold(e: Element, mapping: Mapping, i: nat, d: Dict<Json>): Result<Dict<Json>>
    requires i <= |e.children|
    decreases e, 0, |e.children| - i
  {
    if i == |e.children| then Ok(d)
    else
      var r :- Process(e.children[i], mapping, e.tag);
      match r
      case None => Fold(e, mapping, i + 1, d)
      case Some(item) =>
        var d' :- GroupStep(d, item);
        Fold(e, mapping, i + 1, d')
  }

  /** `process_element`: the mapping step, the loop over the children with
      a recursive call for each, and the geoReference rule. */
  method ProcessElement(element: Element, mapping: Mapping, parentTag: string) returns (r: Result<Option<(string, Json)>>)
    ensures r == Process(element, mapping, parentTag)
    decreases element, 1
  {
    var tag := element.tag;
    var nodeData :- MapTag(element, mapping);
    var d :- GroupChildren(element, mapping, nodeData);
    if tag == "geoReference" && parentTag == "header" {
      d := Put(d, "proj4_str", TextJson(element.text));
    }
    var tagExist := tag in Keys(mapping);
    if |d| > 0 || tagExist {
      r := Ok(Some((tag, JObj(d))));
    } else {
      r := Ok(None);
    }
  }

  /** The results of the children from position `i` on that are not None,
      in document order; the first failing child is raised. */
  function ChildResults(e: Element, mapping: Mapping, i: nat): Result<seq<(string, Json)>>
    requires i <= |e.children|
    decreases |e.children| - i
  {
    if i == |e.children| then Ok([])
    else
      var r :- Process(e.children[i], mapping, e.tag);
      var rest :- ChildResults(e, mapping, i + 1);
      Ok((if r.Some? then [r.value] else []) + rest)
  }

  /** Grouping a list of child results into `d`, one `GroupStep` each. */
  function GroupAll(d: Dict<Json>, items: seq<(string, Json)>): Result<Dict<Json>>
    decreases |items|
  {
    if |items| == 0 then Ok(d)
    else
      var d' :- GroupStep(d, items[0]);
      GroupAll(d', items[1..])
  }

  /** The values of the results under key `k`, in order. */
  function ValuesFor(items: seq<(string, Json)>, k: string): seq<Json>
  {
    if |items| == 0 then []
    else (if items[0].0 == k then [items[0].1] else []) + ValuesFor(items[1..], k)
  }

  /** The list already stored under `k`, or none. */
  function Prior(d: Dict<Json>, k: string): seq<Json>
  {
    var v := Get(d, k);
    if v.Some? && v.value.JArr? then v.value.items else []
  }

  /** `k` is bound to something that is not a list, so `append` fails. */
  predicate Clash(d: Dict<Json>, k: string)
  {
    Get(d, k).Some? && !Get(d, k).value.JArr?
  }

  /** One `GroupStep`: it fails exactly on a clash, and otherwise extends
      the list under the result's key and changes nothing else. */
  lemma GroupStepGet(d: Dict<Json>, item: (string, Json), k: string)
    ensures GroupStep(d, item).Err? <==> Clash(d, item.0)
    ensures GroupStep(d, item).Ok? ==>
              Get(GroupStep(d, item).value, k) == if k == item.0 then Some(JArr(Prior(d, k) + [item.1])) else Get(d, k)
  {
    assert [] + [item.1] == [item.1];
  }

  /** Grouping a list whose first result is `item`. */
  lemma GroupAllCons(d: Dict<Json>, item: (string, Json), rest: seq<(string, Json)>)
    ensures GroupAll(d, [item] + rest)
            == if GroupStep(d, item).Err? then Err(GroupStep(d, item).error) else GroupAll(GroupStep(d, item).value, rest)
  {
    assert ([item] + rest)[0] == item && ([item] + rest)[1..] == rest;
  }

  /** Grouping fails exactly when some result's key is already bound to a
      non-list. */
  lemma {:induction false} GroupAllFails(d: Dict<Json>, items: seq<(string, Json)>)
    ensures GroupAll(d, items).Err? <==> exists j :: 0 <= j < |items| && Clash(d, items[j].0)
    decreases |items|
  {
    if |items| > 0 {
      var item := items[0];
      var rest := items[1..];
      assert items == [item] + rest;
      GroupAllCons(d, item, rest);
      GroupStepGet(d, item, item.0);
      if !Clash(d, item.0) {
        var d' := GroupStep(d, item).value;
        GroupAllFails(d', rest);
        forall x | x != item.0
          ensures Clash(d', x) == Clash(d, x)
        {
          GroupStepGet(d, item, x);
        }
        if exists j :: 1 <= j < |items| && Clash(d, items[j].0) {
          var j :| 1 <= j < |items| && Clash(d, items[j].0);
          assert rest[j - 1] == items[j];
        }
        if exists j :: 0 <= j < |rest| && Clash(d', rest[j].0) {
          var j :| 0 <= j < |rest| && Clash(d', rest[j].0);
          assert rest[j] == items[j + 1];
        }
      }
    }
  }

  /** After grouping, each key with results holds the earlier list followed
      by those results, and every other key is unchanged. */
  lemma {:induction false} GroupAllGet(d: Dict<Json>, items: seq<(string, Json)>, k: string)
    requires GroupAll(d, items).Ok?
    ensures Get(GroupAll(d, items).value, k) == Grouped(d, ValuesFor(items, k), k)
    decreases |items|
  {
    if |items| > 0 {
      var item := items[0];
      var rest := items[1..];
      GroupStepGet(d, item, k);
      var d' := GroupStep(d, item).value;
      assert GroupAll(d, items) == GroupAll(d', rest);
      GroupAllGet(d', rest, k);
      GroupedStep(d, d', item, ValuesFor(rest, k), k);
    }
  }

  /** The value under `k` after grouping `vs` under it into `d`. */
  function Grouped(d: Dict<Json>, vs: seq<Json>, k: string): Option<Json>
  {
    if vs == [] then Get(d, k) else Some(JArr(Prior(d, k) + vs))
  }

  lemma GroupedStep(d: Dict<Json>, d': Dict<Json>, item: (string, Json), vs: seq<Json>, k: string)
    requires Get(d', k) == if k == item.0 then Some(JArr(Prior(d, k) + [item.1])) else Get(d, k)
    ensures Grouped(d', vs, k) == Grouped(d, (if item.0 == k then [item.1] else []) + vs, k)
  {
    if item.0 == k {
      var p := Prior(d, k);
      assert Prior(d', k) == p + [item.1];
      assert Grouped(d, [item.1] + vs, k) == Some(JArr(p + ([item.1] + vs)));
      SnocRegroup(p, item.1, vs);
    } else {
      assert [] + vs == vs;
    }
  }

  lemma SnocRegroup<T>(p: seq<T>, x: T, vs: seq<T>)
    ensures p + ([x] + vs) == p + [x] + vs
    ensures p + ([x] + []) == p + [x]
  {
  }

  /** One step of the children's results. */
  lemma ChildResultsNext(e: Element, mapping: Mapping, i: nat)
    requires i < |e.children|
    ensures var p := Process(e.children[i], mapping, e.tag);
            var cr := ChildResults(e, mapping, i + 1);
            ChildResults(e, mapping, i)
            == if p.Err? then Err(p.error)
               else if cr.Err? then Err(cr.error)
               else if p.value.None? then cr
               else Ok([p.value.value] + cr.value)
  {
    var cr := ChildResults(e, mapping, i + 1);
    if cr.Ok? {
      assert [] + cr.value == cr.value;
    }
  }

  /** The loop over the children succeeds exactly when every child succeeds
      and their results group without a clash, and then it is that
      grouping. */
  lemma {:induction false} FoldIsGroupAll(e: Element, mapping: Mapping, i: nat, d: Dict<Json>)
    requires i <= |e.children|
    ensures Fold(e, mapping, i, d).Ok? <==>
              ChildResults(e, mapping, i).Ok? && GroupAll(d, ChildResults(e, mapping, i).value).Ok?
    ensures Fold(e, mapping, i, d).Ok? ==> Fold(e, mapping, i, d) == GroupAll(d, ChildResults(e, mapping, i).value)
    decreases |e.children| - i
  {
    if i < |e.children| {
      FoldNext(e, mapping, i, d);
      ChildResultsNext(e, mapping, i);
      var p := Process(e.children[i], mapping, e.tag);
      if p.Ok? {
        var cr := ChildResults(e, mapping, i + 1);
        if p.value.None? {
          FoldIsGroupAll(e, mapping, i + 1, d);
        } else {
          var item := p.value.value;
          var g := GroupStep(d, item);
          if cr.Ok? {
            GroupAllCons(d, item, cr.value);
          }
          if g.Ok? {
            FoldIsGroupAll(e, mapping, i + 1, g.value);
          }
        }
      }
    }
  }

  /** One step of the loop over the children. */
  lemma FoldNext(e: Element, mapping: Mapping, i: nat, d: Dict<Json>)
    requires i < |e.children|
    ensures var p := Process(e.children[i], mapping, e.tag);
            Fold(e, mapping, i, d)
            == if p.Err? then Err(p.error)
               else if p.value.None? then Fold(e, mapping, i + 1, d)
               else var g := GroupStep(d, p.value.value);
                    if g.Err? then Err(g.error) else Fold(e, mapping, i + 1, g.value)
  {
  }

  /** The loop of `process_element` over the children, each processed
      recursively and its result grouped into `d` by tag. */
  method GroupChildren(element: Element, mapping: Mapping, d0: Dict<Json>) returns (r: Result<Dict<Json>>)
    ensures r == Fold(element, mapping, 0, d0)
    decreases element, 0
  {
    var d := d0;
    var children := element.children;
    for i := 0 to |children|
      invariant Fold(element, mapping, i, d) == Fold(element, mapping, 0, d0)
    {
      var childData := ProcessElement(children[i], mapping, element.tag);
      FoldNext(element, mapping, i, d);
      if childData.Err? {
        return Err(childData.error);
      }
      if childData.value.Some? {
        var (key, value) := childData.value.value;
        var step := GroupStep(d, (key, value));
        if step.Err? {
          return Err(step.error);
        }
        d := step.value;
      }
    }
    r := Ok(d);
  }

  /** `process_element` returns None exactly for an unmapped element with
      no child result that is not a header's geoReference. Otherwise it
      returns `{tag: data}` where `data` holds the header's geoReference
      text as `proj4_str`, and under every other key the mapped value with
      the children's results under that key grouped after it. */
  lemma ProcessData(e: Element, mapping: Mapping, parentTag: string, k: string)
    requires Process(e, mapping, parentTag).Ok?
    ensures MappedData(e, mapping).Ok? && ChildResults(e, mapping, 0).Ok?
    ensures var items := ChildResults(e, mapping, 0).value;
            var geo := e.tag == "geoReference" && parentTag == "header";
            var r := Process(e, mapping, parentTag).value;
            (r.None? <==> e.tag !in Keys(mapping) && items == [] && !geo)
            && (r.Some? ==>
                  r.value.0 == e.tag && r.value.1.JObj?
                  && Get(r.value.1.fields, k)
                     == if geo && k == "proj4_str" then Some(TextJson(e.text))
                        else Grouped(MappedData(e, mapping).value, ValuesFor(items, k), k))
  {
    var d0 := MappedData(e, mapping).value;
    FoldIsGroupAll(e, mapping, 0, d0);
    var items := ChildResults(e, mapping, 0).value;
    GroupAllGet(d0, items, k);
    var d1 := GroupAll(d0, items).value;
    if Get(mapping, e.tag).None? {
      MappedDataGet(e, mapping, k);
      if |items| > 0 {
        GroupAllGet(d0, items, items[0].0);
        assert ValuesFor(items, items[0].0) != [];
        assert items[0].0 in Keys(d1);
      } else {
        assert d1 == d0;
      }
    }
  }

  /** A result is keyed by the element's tag, and a mapped element always has one. */
  lemma ProcessTag(e: Element, mapping: Mapping, parentTag: string)
    requires Process(e, mapping, parentTag).Ok?
    ensures var r := Process(e, mapping, parentTag).value;
            (r.Some? ==> r.value.0 == e.tag) && (e.tag in Keys(mapping) ==> r.Some?)
  {
    ProcessData(e, mapping, parentTag, "");
  }

  /** Each of the children's results comes from a child with the same
      tag. */
  lemma {:induction false} ChildResultsFrom(e: Element, mapping: Mapping, i: nat)
    requires i <= |e.children| && ChildResults(e, mapping, i).Ok?
    ensures var items := ChildResults(e, mapping, i).value;
            forall t :: 0 <= t < |items| ==>
              exists j :: i <= j < |e.children| && Process(e.children[j], mapping, e.tag) == Ok(Some(items[t]))
                          && items[t].0 == e.children[j].tag
    decreases |e.children| - i
  {
    if i < |e.children| {
      ChildResultsNext(e, mapping, i);
      ChildResultsFrom(e, mapping, i + 1);
      var items := ChildResults(e, mapping, i).value;
      var rest := ChildResults(e, mapping, i + 1).value;
      var p := Process(e.children[i], mapping, e.tag).value;
      if p.Some? {
        ProcessTag(e.children[i], mapping, e.tag);
        forall t | 0 < t < |items|
          ensures items[t] == rest[t - 1]
        {
        }
      }
    }
  }

  /** Every mapped child gives a result. */
  lemma {:induction false} ChildResultsMapped(e: Element, mapping: Mapping, i: nat, j: nat)
    requires i <= j < |e.children| && ChildResults(e, mapping, i).Ok?
    requires e.children[j].tag in Keys(mapping)
    ensures exists t :: 0 <= t < |ChildResults(e, mapping, i).value|
                        && ChildResults(e, mapping, i).value[t].0 == e.children[j].tag
    decreases |e.children| - i
  {
    ChildResultsNext(e, mapping, i);
    var items := ChildResults(e, mapping, i).value;
    var p := Process(e.children[i], mapping, e.tag).value;
    ProcessTag(e.children[i], mapping, e.tag);
    if j == i {
      assert items[0] == p.value;
    } else {
      ChildResultsMapped(e, mapping, i + 1, j);
      var rest := ChildResults(e, mapping, i + 1).value;
      var t :| 0 <= t < |rest| && rest[t].0 == e.children[j].tag;
      if p.Some? {
        assert items[t + 1] == rest[t];
      } else {
        assert items[t] == rest[t];
      }
    }
  }

  /** The output of the reducer: `{tag: data}` for each child of the root
      with a result, in document order. */
  function Reduced(root: Element, mapping: Mapping): Result<seq<Json>>
  {
    var items :- ChildResults(root, mapping, 0);
    Ok(Singletons(items))
  }

  function Singletons(items: seq<(string, Json)>): (r: seq<Json>)
    ensures |r| == |items|
  {
    seq(|items|, j requires 0 <= j < |items| => JObj([items[j]]))
  }

  /** What the loop of the reducer's `main` keeps: the results gathered so
      far followed by those of the remaining children are all the results. */
  ghost predicate ReduceInv(root: Element, mapping: Mapping, i: nat, acc: seq<(string, Json)>)
    requires i <= |root.children|
  {
    ChildResults(root, mapping, 0) == (var rest :- ChildResults(root, mapping, i); Ok(acc + rest))
  }

  lemma ReduceStart(root: Element, mapping: Mapping)
    ensures ReduceInv(root, mapping, 0, [])
  {
    var all := ChildResults(root, mapping, 0);
    if all.Ok? {
      assert [] + all.value == all.value;
    }
  }

  /** One child: its failure is the reducer's failure, and otherwise its
      result joins the gathered ones. */
  lemma ReduceNext(root: Element, mapping: Mapping, i: nat, acc: seq<(string, Json)>)
    requires i < |root.children| && ReduceInv(root, mapping, i, acc)
    ensures var p := Process(root.children[i], mapping, root.tag);
            (p.Err? ==> Reduced(root, mapping) == Err(p.error))
            && (p.Ok? ==> ReduceInv(root, mapping, i + 1, if p.value.Some? then acc + [p.value.value] else acc))
  {
    ChildResultsNext(root, mapping, i);
    var p := Process(root.children[i], mapping, root.tag);
    var rest := ChildResults(root, mapping, i + 1);
    if p.Ok? && p.value.Some? && rest.Ok? {
      assert acc + ([p.value.value] + rest.value) == acc + [p.value.value] + rest.value;
    }
  }

  lemma ReduceDone(root: Element, mapping: Mapping, acc: seq<(string, Json)>)
    requires ReduceInv(root, mapping, |root.children|, acc)
    ensures Reduced(root, mapping) == Ok(Singletons(acc))
  {
    assert acc + [] == acc;
  }

  lemma SingletonsSnoc(items: seq<(string, Json)>, item: (string, Json))
    ensures Singletons(items + [item]) == Singletons(items) + [JObj([item])]
  {
  }

  /** The loop of the reducer's `main` over the children of the root. */
  method ReduceAsset(root: Element, mapping: Mapping) returns (r: Result<seq<Json>>)
    ensures r == Reduced(root, mapping)
  {
    var jsonData: seq<Json> := [];
    ghost var acc: seq<(string, Json)> := [];
    ReduceStart(root, mapping);
    for i := 0 to |root.children|
      invariant jsonData == Singletons(acc)
      invariant ReduceInv(root, mapping, i, acc)
    {
      ReduceNext(root, mapping, i, acc);
      var result :- ProcessElement(root.children[i], mapping, root.tag);
      if result.Some? {
        SingletonsSnoc(acc, result.value);
        jsonData := jsonData + [JObj([result.value])];
        acc := acc + [result.value];
      }
    }
    ReduceDone(root, mapping, acc);
    r := Ok(jsonData);
  }

  /** The mapping step of `process_element`. */
  method MapTag(element: Element, mapping: Mapping) returns (r: Result<Dict<Json>>)
    ensures r == MappedData(element, mapping)
  {
    var nodeData: Dict<Json> := [];
    var tagMapping := Get(mapping, element.tag);
    if tagMapping.None? {
      return Ok(nodeData);
    }
    var tm := tagMapping.value;
    if tm.attributes.Some? {
      var attres := ExtractAttributes(element, tm.attributes.value);
      nodeData := Update(nodeData, StrObj(attres));
    }
    if tm.func.Some? {
      var funcName := tm.func.value;
      if |funcName| == 0 {
        return Err(IndexError("list index out of range"));
      }
      if funcName[0] == "calcExtrema" {
        if |funcName| < 2 {
          return Err(IndexError("list index out of range"));
        }
        var values :- CalcExtrema(Some(element), funcName[1]);
        if values.Some? && values.value.Range? {
          nodeData := Put(Put(nodeData, "min", JNum(values.value.min)), "max", JNum(values.value.max));
        }
      }
    }
    r := Ok(nodeData);
  }
}

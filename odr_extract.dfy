/**
 * The OpenDRIVE metadata extractor's own rules
 * (meta_data_extractor/xodr/extract_odr.py): `container_in_str`,
 * `check_data`, the distinct sorted lane and road types, the speed-limit
 * range, and the parsing of a PROJ.4 `geoReference` text.
 *
 * An element the extractor reads is given by its attributes, in document
 * order. `root.find(path)` is the first of `root.findall(path)`; the XPath
 * search itself is not modelled, so the matched elements are parameters.
 */
module OdrExtract {
  import opened Wrappers
  import opened ODict
  import opened PyStr
  import opened PyMinMax

  type Attrib = Dict<string>

  // ------------------------------------------------------- container_in_str

  /** The text `container_in_str` builds: every present value preceded by one
      space, in order; an absent value adds nothing. */
  function Spaced(values: seq<Option<string>>): string
  {
    if |values| == 0 then ""
    else (match values[0] case Some(v) => " " + v case None => "") + Spaced(values[1..])
  }

  /** The present values, in order. */
  function Present(values: seq<Option<string>>): (r: seq<string>)
    ensures forall v :: v in r <==> Some(v) in values
  {
    if |values| == 0 then []
    else
      assert values == [values[0]] + values[1..];
      (match values[0] case Some(v) => [v] case None => []) + Present(values[1..])
  }

  /** `container_in_str(data)`, for the values in the order the container
      yields them. */
  method ContainerInStr(data: seq<Option<string>>) returns (s: string)
    ensures s == Spaced(data)
  {
    s := "";
    for i := 0 to |data|
      invariant Spaced(data) == s + Spaced(data[i..])
    {
      SpacedFrom(data, i);
      var value := data[i];
      if value.Some? {
        SpacedRegroup(s, value.value, Spaced(data[i + 1..]));
        s := s + " " + value.value;
      }
    }
    assert data[|data|..] == [];
  }

  /** The text of the values from `i` on: the `i`-th, then the rest. */
  lemma SpacedFrom(data: seq<Option<string>>, i: nat)
    requires i < |data|
    ensures Spaced(data[i..]) == (match data[i] case Some(v) => " " + v case None => "") + Spaced(data[i + 1..])
  {
    assert data[i..][1..] == data[i + 1..];
  }

  lemma SpacedRegroup(s: string, v: string, rest: string)
    ensures s + (" " + v + rest) == s + " " + v + rest
  {
  }

  /** The text is empty when no value is present, and otherwise one space
      followed by the present values joined by spaces. */
  lemma {:induction false} SpacedJoin(values: seq<Option<string>>)
    ensures Spaced(values) == if |Present(values)| == 0 then "" else " " + Join(" ", Present(values))
  {
    if |values| > 0 {
      SpacedJoin(values[1..]);
      var rest := Present(values[1..]);
      match values[0]
      case None =>
        assert Spaced(values) == Spaced(values[1..]);
        assert Present(values) == rest;
      case Some(v) =>
        assert Spaced(values) == " " + v + Spaced(values[1..]);
        assert Present(values) == [v] + rest;
        if |rest| > 0 {
          assert ([v] + rest)[1..] == rest;
          assert Join(" ", [v] + rest) == v + " " + Join(" ", rest);
        } else {
          assert Join(" ", [v]) == v;
        }
    }
  }

  /** Present values free of spaces are read back by splitting the text
      after its leading space. */
  lemma SpacedSplit(values: seq<Option<string>>)
    requires |Present(values)| > 0
    requires forall v :: Some(v) in values ==> ' ' !in v
    ensures |Spaced(values)| > 0 && Spaced(values)[0] == ' '
    ensures Split(Spaced(values)[1..], " ") == Present(values)
  {
    SpacedJoin(values);
    var ps := Present(values);
    assert forall i :: 0 <= i < |ps| ==> Some(ps[i]) in values by {
      forall i | 0 <= i < |ps| ensures Some(ps[i]) in values { assert ps[i] in ps; }
    }
    assert (" " + Join(" ", ps))[1..] == Join(" ", ps);
    SplitJoin(ps, ' ');
  }

  // -------------------------------------------------------------- check_data

  /** What `check_data` answers for the first element found at a path (None
      when nothing is found) and the attribute names asked for. */
  predicate HasAttributes(found: Option<Attrib>, names: seq<string>)
  {
    found.Some? && forall i :: 0 <= i < |names| ==> names[i] in Keys(found.value)
  }

  /** `check_data`: false when nothing is found at the path or one of the
      requested attributes is missing (the KeyError is caught), true otherwise. */
  /** Asking for one attribute asks whether the found element has it. */
  lemma HasAttribute(found: Option<Attrib>, name: string)
    ensures HasAttributes(found, [name]) <==> found.Some? && name in Keys(found.value)
  {
    assert [name][0] == name;
  }

  method CheckData(found: Option<Attrib>, names: seq<string>) returns (r: bool)
    ensures r <==> found.Some? && forall i :: 0 <= i < |names| ==> names[i] in Keys(found.value)
  {
    if found.None? {
      return false;
    }
    var entries := found.value;
    for i := 0 to |names|
      invariant forall j :: 0 <= j < i ==> names[j] in Keys(entries)
    {
      if Get(entries, names[i]).None? {
        return false;
      }
    }
    return true;
  }

  /** `root.find(path)`: the first of the matched elements. */
  function First(elements: seq<Attrib>): (r: Option<Attrib>)
    ensures r.Some? <==> |elements| > 0
    ensures r.Some? ==> r.value == elements[0]
  {
    if |elements| == 0 then None else Some(elements[0])
  }

  // ----------------------------------------------------- attribute lists

  /** `[e.attrib[name] for e in elements]`: KeyError at the first element
      without the attribute. */
  function AttrValues(elements: seq<Attrib>, name: string): (r: Result<seq<string>>)
    ensures r.Ok? <==> forall i :: 0 <= i < |elements| ==> name in Keys(elements[i])
    ensures r.Ok? ==> |r.value| == |elements|
    ensures r.Ok? ==> forall i :: 0 <= i < |elements| ==> Get(elements[i], name) == Some(r.value[i])
    ensures r.Err? ==> r.error == KeyError(name)
  {
    if |elements| == 0 then Ok([])
    else
      var n := |elements| - 1;
      var pre := AttrValues(elements[..n], name);
      if pre.Err? then
        assert exists i :: 0 <= i < n && name !in Keys(elements[i]) by {
          var i :| 0 <= i < n && name !in Keys(elements[..n][i]);
          assert elements[..n][i] == elements[i];
        }
        Err(pre.error)
      else
        match Get(elements[n], name)
        case None => Err(KeyError(name))
        case Some(v) =>
          var r := pre.value + [v];
          assert forall i :: 0 <= i < |elements| ==> Get(elements[i], name) == Some(r[i]) by {
            forall i | 0 <= i < |elements|
              ensures Get(elements[i], name) == Some(r[i])
            {
              if i < n {
                assert elements[..n][i] == elements[i];
              }
            }
          }
          Ok(r)
  }

  /** `set(xs)` as a list: each value once. */
  function Distinct(xs: seq<string>): (r: seq<string>)
    ensures forall x :: multiset(r)[x] == if x in xs then 1 else 0
  {
    if |xs| == 0 then []
    else
      assert xs == [xs[0]] + xs[1..];
      if xs[0] in xs[1..] then Distinct(xs[1..]) else [xs[0]] + Distinct(xs[1..])
  }

  /** `sorted(set(xs))`: the distinct values in string order. */
  function SortedSet(xs: seq<string>): (r: seq<string>)
    ensures SortedStr(r)
    ensures forall x :: multiset(r)[x] == if x in xs then 1 else 0
    ensures |r| > 0 <==> |xs| > 0
  {
    SortStringsSorted(Distinct(xs));
    var r := SortStrings(Distinct(xs));
    assert |xs| > 0 ==> multiset(r)[xs[0]] == 1;
    r
  }

  /** The `hdmap:laneTypes` and `hdmap:roadTypes` entries: when the first
      matched element has a `type`, the sorted distinct types of all matched
      elements; no entry otherwise. */
  function TypesEntry(elements: seq<Attrib>): (r: Result<Option<seq<string>>>)
  {
    if HasAttributes(First(elements), ["type"]) then
      var types :- AttrValues(elements, "type");
      var sorted := SortedSet(types);
      Ok(if |sorted| > 0 then Some(sorted) else None)
    else Ok(None)
  }

  /** No entry exactly when nothing matches or the first element has no
      `type`; a KeyError when a later element has none; otherwise the entry
      is sorted and holds each element's type exactly once. */
  lemma TypesEntryMeaning(elements: seq<Attrib>)
    ensures TypesEntry(elements) == Ok(None) <==> |elements| == 0 || "type" !in Keys(elements[0])
    ensures TypesEntry(elements).Err? <==>
              |elements| > 0 && "type" in Keys(elements[0])
              && exists i :: 0 <= i < |elements| && "type" !in Keys(elements[i])
    ensures TypesEntry(elements).Ok? && TypesEntry(elements).value.Some? ==>
              var ts := TypesEntry(elements).value.value;
              SortedStr(ts)
              && (forall i :: 0 <= i < |elements| ==> Get(elements[i], "type").Some? && Get(elements[i], "type").value in ts)
              && (forall x :: x in ts ==> multiset(ts)[x] == 1 && exists i :: 0 <= i < |elements| && Get(elements[i], "type") == Some(x))
  {
    HasAttribute(First(elements), "type");
    if HasAttributes(First(elements), ["type"]) && AttrValues(elements, "type").Ok? {
      var types := AttrValues(elements, "type").value;
      var ts := SortedSet(types);
      assert "type" in Keys(elements[0]);
      assert |ts| > 0;
      assert TypesEntry(elements) == Ok(Some(ts));
      forall i | 0 <= i < |elements|
        ensures Get(elements[i], "type").value in ts
      {
        assert multiset(ts)[types[i]] == 1;
      }
      forall x | x in ts
        ensures multiset(ts)[x] == 1 && exists i :: 0 <= i < |elements| && Get(elements[i], "type") == Some(x)
      {
        assert multiset(ts)[x] > 0;
        var i :| 0 <= i < |types| && types[i] == x;
        assert Get(elements[i], "type") == Some(x);
      }
    }
  }

  // ---------------------------------------------------------- speed limits

  /** The `hdmap:speedLimit` record. */
  datatype SpeedLimit = SpeedLimit(min: real, max: real)

  /** The `hdmap:speedLimit` record as the code computes it from the `speed`
      elements: the `float` of the first and of the last of the sorted distinct
      `max` texts. Without a `max` on the first element the code indexes the
      set `{0, 50}`, which raises TypeError. */
  function SpeedLimitAsWritten(speeds: seq<Attrib>): (r: Result<SpeedLimit>)
    ensures !HasAttributes(First(speeds), ["max"]) ==> r.Err? && r.error.TypeError?
    ensures r.Ok? ==> AttrValues(speeds, "max").Ok?
    ensures r.Ok? ==> var texts := SortedSet(AttrValues(speeds, "max").value);
                      |texts| > 0 && Float(texts[0]) == Ok(r.value.min) && Float(texts[|texts| - 1]) == Ok(r.value.max)
  {
    if HasAttributes(First(speeds), ["max"]) then
      var maxes :- AttrValues(speeds, "max");
      var range := SortedSet(maxes);
      var lo :- Float(range[0]);
      var hi :- Float(range[|range| - 1]);
      Ok(SpeedLimit(lo, hi))
    else Err(TypeError("'set' object is not subscriptable"))
  }

  /** The numeric value of a `speed` element's `max`. */
  function MaxValue(speed: Attrib): (r: Result<real>)
    ensures r.Ok? ==> Get(speed, "max").Some? && Float(Get(speed, "max").value) == r
  {
    match Get(speed, "max")
    case None => Err(KeyError("max"))
    case Some(s) => Float(s)
  }

  /** Each element's `max` value, in order; the first failure is raised. */
  function MaxValues(speeds: seq<Attrib>): (r: Result<seq<real>>)
    ensures r.Ok? ==> |r.value| == |speeds|
    ensures r.Ok? ==> forall i :: 0 <= i < |speeds| ==> MaxValue(speeds[i]) == Ok(r.value[i])
  {
    if |speeds| == 0 then Ok([])
    else
      var n := |speeds| - 1;
      var pre := MaxValues(speeds[..n]);
      if pre.Err? then Err(pre.error)
      else
        var last := MaxValue(speeds[n]);
        if last.Err? then Err(last.error)
        else
          var r := pre.value + [last.value];
          assert forall i :: 0 <= i < |speeds| ==> MaxValue(speeds[i]) == Ok(r[i]) by {
            forall i | 0 <= i < |speeds|
              ensures MaxValue(speeds[i]) == Ok(r[i])
            {
              if i < n {
                assert speeds[..n][i] == speeds[i];
              }
            }
          }
          Ok(r)
  }

  /** The speed-limit record with the numeric minimum and maximum of the
      `max` values, and 0 to 50 when there is no `max` to read. */
  function SpeedLimitRange(speeds: seq<Attrib>): (r: Result<SpeedLimit>)
    ensures !HasAttributes(First(speeds), ["max"]) ==> r == Ok(SpeedLimit(0.0, 50.0))
    ensures r.Ok? ==> r.value.min <= r.value.max
  {
    if HasAttributes(First(speeds), ["max"]) then
      var values :- MaxValues(speeds);
      MinMaxOf(values);
      Ok(SpeedLimit(MinOf(values), MaxOf(values)))
    else Ok(SpeedLimit(0.0, 50.0))
  }

  /** The corrected range holds every element's value and is reached by some. */
  lemma SpeedLimitRangeBounds(speeds: seq<Attrib>)
    requires SpeedLimitRange(speeds).Ok? && |speeds| > 0 && "max" in Keys(speeds[0])
    ensures var r := SpeedLimitRange(speeds).value;
            (forall i :: 0 <= i < |speeds| ==> MaxValue(speeds[i]).Ok? && r.min <= MaxValue(speeds[i]).value <= r.max)
            && (exists i :: 0 <= i < |speeds| && MaxValue(speeds[i]) == Ok(r.min))
            && (exists i :: 0 <= i < |speeds| && MaxValue(speeds[i]) == Ok(r.max))
  {
    HasAttribute(First(speeds), "max");
    assert SpeedLimitRange(speeds) == Ok(SpeedLimit(MinOf(MaxValues(speeds).value), MaxOf(MaxValues(speeds).value)));
    var values := MaxValues(speeds).value;
    MinMaxOf(values);
    var a :| 0 <= a < |values| && values[a] == MinOf(values);
    var b :| 0 <= b < |values| && values[b] == MaxOf(values);
    assert MaxValue(speeds[a]) == Ok(MinOf(values));
    assert MaxValue(speeds[b]) == Ok(MaxOf(values));
  }

  lemma FloatLiterals()
    ensures Float("100") == Ok(100.0) && Float("30") == Ok(30.0)
  {
    ContainsCharIff("100", '.');
    ContainsCharIff("30", '.');
    assert "100"[..2] == "10" && "10"[..1] == "1" && "1"[..0] == "";
    assert "30"[..1] == "3" && "3"[..0] == "";
    assert DigitsValue("100") == 100;
    assert DigitsValue("30") == 30;
  }

  /** Two speed elements with the limits `a` and `b`. */
  function TwoSpeeds(a: string, b: string): seq<Attrib>
  {
    [[("max", a)], [("max", b)]]
  }

  /** The attribute values of two elements that each have only that attribute. */
  lemma TwoValues(a: string, b: string, name: string)
    ensures AttrValues([[(name, a)], [(name, b)]], name) == Ok([a, b])
  {
    var es := [[(name, a)], [(name, b)]];
    var one := es[..1];
    assert Get(es[0], name) == Some(a);
    assert Get(es[1], name) == Some(b);
    assert one == [es[0]] && one[..0] == [];
    assert AttrValues(one[..0], name) == Ok([]);
    assert AttrValues(one, name) == Ok([] + [a]);
    assert [] + [a] == [a];
    assert es[..|es| - 1] == one;
    assert AttrValues(es, name) == Ok([a] + [b]);
    assert [a] + [b] == [a, b];
  }

  /** Of two limits whose texts sort in the opposite order to their values,
      the code takes the larger as the minimum and the smaller as the maximum. */
  lemma TwoSpeedsAsWritten(a: string, b: string, x: real, y: real)
    requires a != b && !StrLe(a, b) && Float(a) == Ok(x) && Float(b) == Ok(y)
    ensures SpeedLimitAsWritten(TwoSpeeds(a, b)) == Ok(SpeedLimit(y, x))
  {
    var speeds := TwoSpeeds(a, b);
    HasAttribute(First(speeds), "max");
    TwoValues(a, b, "max");
    SortedSetTwo(a, b);
  }

  /** Two different texts in descending string order come out swapped. */
  lemma SortedSetTwo(a: string, b: string)
    requires a != b && !StrLe(a, b)
    ensures SortedSet([a, b]) == [b, a]
  {
    assert Distinct([a, b]) == [a, b] by {
      assert [a, b][1..] == [b];
    }
    assert SortStrings([a, b]) == [b, a] by {
      assert [a, b][1..] == [b] && [b][1..] == [];
      assert SortStrings([b]) == InsertStr(b, []) == [b];
      assert InsertStr(a, [b]) == [b] + InsertStr(a, []);
    }
  }

  /** The corrected range of two limits runs from the smaller value to the larger. */
  lemma TwoSpeedsRange(a: string, b: string, x: real, y: real)
    requires Float(a) == Ok(x) && Float(b) == Ok(y) && x <= y
    ensures SpeedLimitRange(TwoSpeeds(a, b)) == Ok(SpeedLimit(x, y))
  {
    var speeds := TwoSpeeds(a, b);
    HasAttribute(First(speeds), "max");
    var one := speeds[..1];
    assert MaxValue(speeds[0]) == Ok(x);
    assert MaxValue(speeds[1]) == Ok(y);
    assert one == [speeds[0]] && one[..0] == [];
    assert MaxValues(one[..0]) == Ok([]);
    assert MaxValues(one) == Ok([] + [x]);
    assert [] + [x] == [x];
    assert speeds[..|speeds| - 1] == one;
    assert MaxValues(speeds) == Ok([x] + [y]);
    assert [x] + [y] == [x, y] && [x, y][..1] == [x];
    assert MinOf([x, y]) == x && MaxOf([x, y]) == y;
  }

  /** With limits 30 and 100 the code writes a minimum of 100 and a maximum
      of 30, because "100" sorts before "30"; the corrected range is 30 to 100. */
  lemma SpeedLimitLexicographic()
    ensures SpeedLimitAsWritten(TwoSpeeds("30", "100")) == Ok(SpeedLimit(100.0, 30.0))
    ensures SpeedLimitRange(TwoSpeeds("30", "100")) == Ok(SpeedLimit(30.0, 100.0))
  {
    FloatLiterals();
    assert !StrLe("30", "100");
    TwoSpeedsAsWritten("30", "100", 30.0, 100.0);
    TwoSpeedsRange("30", "100", 30.0, 100.0);
  }

  // --------------------------------------------------------- geoReference

  /** The kinds of token in a PROJ.4 text that the extractor reads. */
  datatype TokenKind = Proj | Grids | Datum | Units | Other

  function Prefix(k: TokenKind): string
    requires k != Other
  {
    match k
    case Proj => "+proj="
    case Grids => "+grids="
    case Datum => "+datum="
    case Units => "+units="
  }

  /** The kind of a token: the first of the four prefixes it starts with. */
  function KindOf(token: string): (k: TokenKind)
    ensures k != Other ==> StartsWith(token, Prefix(k))
  {
    if StartsWith(token, "+proj=") then Proj
    else if StartsWith(token, "+grids=") then Grids
    else if StartsWith(token, "+datum=") then Datum
    else if StartsWith(token, "+units=") then Units
    else Other
  }

  /** `token.split(prefix)[1]` for a token that starts with the prefix: the
      text after the prefix, up to the prefix's next occurrence. */
  function TokenValue(token: string, prefix: string): (r: string)
    requires |prefix| > 0 && StartsWith(token, prefix)
    ensures StartsWith(token[|prefix|..], r)
    ensures !Contains(token[|prefix|..], prefix) ==> r == token[|prefix|..]
  {
    assert OccursAt(token, prefix, 0);
    assert IndexOf(token, prefix) == Some(0);
    var rest := token[|prefix|..];
    assert Split(token, prefix) == [token[..0]] + Split(rest, prefix);
    Split(token, prefix)[1]
  }

  /** What the parse keeps: the concatenated projection names, and the height
      system, datum and unit when given. */
  datatype GeoReference = GeoReference(projectionType: string, heightSystem: Option<string>,
                                       datum: Option<string>, unit: Option<string>)

  /** One token's effect. */
  function GeoStep(g: GeoReference, token: string): GeoReference
  {
    match KindOf(token)
    case Proj => g.(projectionType := g.projectionType + TokenValue(token, Prefix(Proj)))
    case Grids => g.(heightSystem := Some(TokenValue(token, Prefix(Grids))))
    case Datum => g.(datum := Some(TokenValue(token, Prefix(Datum))))
    case Units => g.(unit := Some(TokenValue(token, Prefix(Units))))
    case Other => g
  }

  /** The state after the tokens, from an empty projection name. */
  function GeoTokens(tokens: seq<string>): GeoReference
  {
    if |tokens| == 0 then GeoReference("", None, None, None)
    else GeoStep(GeoTokens(tokens[..|tokens| - 1]), tokens[|tokens| - 1])
  }

  /** The token loop over `geo_reference.split(' ')`. */
  method ParseGeoReference(geoReference: string) returns (g: GeoReference)
    ensures g == GeoTokens(Split(geoReference, " "))
  {
    var geoData := Split(geoReference, " ");
    var projectionType := "";
    var heightSystem: Option<string> := None;
    var datum: Option<string> := None;
    var unit: Option<string> := None;
    for i := 0 to |geoData|
      invariant GeoReference(projectionType, heightSystem, datum, unit) == GeoTokens(geoData[..i])
    {
      assert geoData[..i + 1][..i] == geoData[..i];
      var information := geoData[i];
      if StartsWith(information, "+proj=") {
        projectionType := projectionType + TokenValue(information, Prefix(Proj));
      } else if StartsWith(information, "+grids=") {
        heightSystem := Some(TokenValue(information, Prefix(Grids)));
      } else if StartsWith(information, "+datum=") {
        datum := Some(TokenValue(information, Prefix(Datum)));
      } else if StartsWith(information, "+units=") {
        unit := Some(TokenValue(information, Prefix(Units)));
      }
    }
    assert geoData[..|geoData|] == geoData;
    g := GeoReference(projectionType, heightSystem, datum, unit);
  }

  /** The projection name of a list of tokens is the name of its first part
      followed by the name of the rest, and one token contributes its value
      exactly when it is a `+proj=` token: the names are concatenated in
      token order. */
  lemma {:induction false} ProjectionConcat(a: seq<string>, b: seq<string>)
    ensures GeoTokens(a + b).projectionType == GeoTokens(a).projectionType + GeoTokens(b).projectionType
    ensures |b| == 1 ==> GeoTokens(b).projectionType == ProjectionPiece(b[0])
    decreases |b|
  {
    if |b| == 0 {
      assert a + b == a;
    } else {
      var n := |b| - 1;
      var t := b[n];
      assert (a + b)[..|a + b| - 1] == a + b[..n];
      ProjectionConcat(a, b[..n]);
      StepProjection(GeoTokens(a + b[..n]), t);
      StepProjection(GeoTokens(b[..n]), t);
      if n == 0 {
        assert b[..n] == [];
      }
    }
  }

  /** What one token adds to the projection name. */
  function ProjectionPiece(token: string): string
  {
    if KindOf(token) == Proj then TokenValue(token, Prefix(Proj)) else ""
  }

  lemma StepProjection(g: GeoReference, token: string)
    ensures GeoStep(g, token).projectionType == g.projectionType + ProjectionPiece(token)
  {
  }

  /** Only a token of a field's kind sets that field, to its value. */
  lemma StepField(g: GeoReference, token: string, k: TokenKind)
    requires k == Grids || k == Datum || k == Units
    ensures Field(GeoStep(g, token), k) == if KindOf(token) == k then Some(TokenValue(token, Prefix(k))) else Field(g, k)
  {
  }

  /** The field a kind of token sets. */
  function Field(g: GeoReference, k: TokenKind): Option<string>
    requires k == Grids || k == Datum || k == Units
  {
    match k
    case Grids => g.heightSystem
    case Datum => g.datum
    case Units => g.unit
  }

  /** Token `i` is the last token of kind `k`. */
  predicate LastOfKind(tokens: seq<string>, k: TokenKind, i: int)
  {
    0 <= i < |tokens| && KindOf(tokens[i]) == k && forall j :: i < j < |tokens| ==> KindOf(tokens[j]) != k
  }

  /** A last token of a kind stays the last when a token of another kind follows. */
  lemma LastOfKindSnoc(tokens: seq<string>, k: TokenKind, i: int)
    requires |tokens| > 0 && LastOfKind(tokens[..|tokens| - 1], k, i) && KindOf(tokens[|tokens| - 1]) != k
    ensures LastOfKind(tokens, k, i)
  {
    var n := |tokens| - 1;
    forall j | i < j < |tokens|
      ensures KindOf(tokens[j]) != k
    {
      if j < n {
        assert tokens[j] == tokens[..n][j];
      }
    }
  }

  /** No token is of a kind exactly when none before the last is and the last is not. */
  lemma NoKindSnoc(tokens: seq<string>, pre: seq<string>, k: TokenKind)
    requires |tokens| > 0 && pre == tokens[..|tokens| - 1]
    ensures (forall i :: 0 <= i < |tokens| ==> KindOf(tokens[i]) != k)
            <==> (forall i :: 0 <= i < |pre| ==> KindOf(pre[i]) != k) && KindOf(tokens[|pre|]) != k
  {
    assert forall i :: 0 <= i < |pre| ==> pre[i] == tokens[i];
  }

  /** The height system, datum and unit are each unset when no token of their
      kind occurs, and otherwise hold the value of the last such token; other
      tokens change none of them. */
  lemma {:induction false} LastTokenWins(tokens: seq<string>, k: TokenKind)
    requires k == Grids || k == Datum || k == Units
    ensures Field(GeoTokens(tokens), k).None? <==> forall i :: 0 <= i < |tokens| ==> KindOf(tokens[i]) != k
    ensures Field(GeoTokens(tokens), k).Some? ==>
              exists i :: LastOfKind(tokens, k, i) && Field(GeoTokens(tokens), k).value == TokenValue(tokens[i], Prefix(k))
  {
    if |tokens| > 0 {
      var n := |tokens| - 1;
      var pre := tokens[..n];
      LastTokenWins(pre, k);
      assert forall i :: 0 <= i < n ==> pre[i] == tokens[i];
      assert GeoTokens(tokens) == GeoStep(GeoTokens(pre), tokens[n]);
      StepField(GeoTokens(pre), tokens[n], k);
      NoKindSnoc(tokens, pre, k);
      var f := Field(GeoTokens(tokens), k);
      if KindOf(tokens[n]) == k {
        assert f == Some(TokenValue(tokens[n], Prefix(k)));
        assert LastOfKind(tokens, k, n);
      } else {
        assert f == Field(GeoTokens(pre), k);
        if f.Some? {
          var i :| LastOfKind(pre, k, i) && f.value == TokenValue(pre[i], Prefix(k));
          LastOfKindSnoc(tokens, k, i);
        }
      }
    }
  }

  /** The `georeference:` entries the parse contributes: the height system
      when one is given, then the EPSG code when one is known for the text
      (its lookup is not modelled: it is `epsg`), else the projection name. */
  function GeodeticEntries(g: GeoReference, epsg: Option<string>): (r: Dict<string>)
    ensures Get(r, "georeference:heightSystem") == g.heightSystem
    ensures epsg.Some? && epsg.value != "" ==>
              Get(r, "georeference:coordinateSystem") == epsg && Get(r, "georeference:coordinateSystemName").None?
    ensures !(epsg.Some? && epsg.value != "") ==>
              Get(r, "georeference:coordinateSystemName") == Some(g.projectionType) && Get(r, "georeference:coordinateSystem").None?
  {
    var d := if g.heightSystem.Some? then [("georeference:heightSystem", g.heightSystem.value)] else [];
    if epsg.Some? && epsg.value != "" then Put(d, "georeference:coordinateSystem", epsg.value)
    else Put(d, "georeference:coordinateSystemName", g.projectionType)
  }
}

/**
 * `xodr_routing_creator`: the plan-view points of every line reprojected to
 * longitude and latitude, the bounding box of the reprojected lines, the
 * closed ring drawn for that box, and the GeoJSON document written for a
 * list of point lists. The projection is a parameter.
 */
module RoutingCreator {
  import opened Wrappers
  import opened PlanView
  import opened PyMinMax
  import opened JsonValue
  import opened ODict

  /** A (lon, lat) pair, or any (first, second) coordinate pair. */
  type Coord = (real, real)

  /** `transformer.transform(x, y)`. */
  type Transform = (real, real) -> Coord

  /** The points transformed one by one, in order. */
  function Project(t: Transform, pts: seq<Vec2>): seq<Coord>
  {
    if |pts| == 0 then [] else Project(t, pts[..|pts| - 1]) + [t(pts[|pts| - 1].x, pts[|pts| - 1].y)]
  }

  lemma {:induction false} ProjectPointwise(t: Transform, pts: seq<Vec2>)
    ensures |Project(t, pts)| == |pts|
    ensures forall i :: 0 <= i < |pts| ==> Project(t, pts)[i] == t(pts[i].x, pts[i].y)
  {
    if |pts| > 0 {
      var n := |pts| - 1;
      ProjectPointwise(t, pts[..n]);
    }
  }

  lemma ProjectSnoc(t: Transform, pts: seq<Vec2>, p: Vec2)
    ensures Project(t, pts + [p]) == Project(t, pts) + [t(p.x, p.y)]
  {
    assert (pts + [p])[..|pts|] == pts;
  }

  /** What `reproject` returns: one transformed point list per line. */
  function Reprojected(lines: seq<seq<Geometry>>, offset: Vec2, endPos: EndPosition, t: Transform): seq<seq<Coord>>
  {
    if |lines| == 0 then []
    else Reprojected(lines[..|lines| - 1], offset, endPos, t) + [Project(t, LinePoints(lines[|lines| - 1], offset, endPos))]
  }

  lemma {:induction false} ReprojectedLines(lines: seq<seq<Geometry>>, offset: Vec2, endPos: EndPosition, t: Transform)
    ensures |Reprojected(lines, offset, endPos, t)| == |lines|
    ensures forall i :: 0 <= i < |lines| ==>
              Reprojected(lines, offset, endPos, t)[i] == Project(t, LinePoints(lines[i], offset, endPos))
  {
    if |lines| > 0 {
      var n := |lines| - 1;
      ReprojectedLines(lines[..n], offset, endPos, t);
    }
  }

  /** `reproject` keeps the number of lines; a line of n > 0 geometries
      becomes n + 1 points, the transformed starts in order and then the
      transformed end of its last geometry, and an empty line stays empty. */
  lemma ReprojectShape(lines: seq<seq<Geometry>>, offset: Vec2, endPos: EndPosition, t: Transform, i: nat)
    requires i < |lines|
    ensures var out := Reprojected(lines, offset, endPos, t);
            var line := lines[i];
            var n := |line|;
            |out| == |lines|
            && |out[i]| == (if n == 0 then 0 else n + 1)
            && (forall k :: 0 <= k < n ==> out[i][k] == t(line[k].x + offset.x, line[k].y + offset.y))
            && (n > 0 ==> out[i][n] == t(End(line[n - 1], offset, endPos).x, End(line[n - 1], offset, endPos).y))
  {
    ReprojectedLines(lines, offset, endPos, t);
    LinePointsShape(lines[i], offset, endPos);
    ProjectPointwise(t, LinePoints(lines[i], offset, endPos));
  }

  /** The inner loop of `reproject` over one line. */
  method ReprojectLine(line: seq<Geometry>, offset: Vec2, endPos: EndPosition, transformer: Transform)
    returns (transformedCoords: seq<Coord>)
    ensures transformedCoords == Project(transformer, LinePoints(line, offset, endPos))
  {
    transformedCoords := [];
    var count := |line| - 1;
    for k := 0 to |line|
      invariant count == |line| - 1 - k
      invariant transformedCoords == Project(transformer, Emitted(line, offset, endPos, k))
    {
      var g := line[k];
      ghost var before := Emitted(line, offset, endPos, k);
      var posAbs := Vec2(g.x + offset.x, g.y + offset.y);
      transformedCoords := transformedCoords + [transformer(posAbs.x, posAbs.y)];
      ProjectSnoc(transformer, before, posAbs);
      if count == 0 {
        var e := endPos(posAbs.x, posAbs.y, g.hdg, g.length);
        transformedCoords := transformedCoords + [transformer(e.0, e.1)];
        ProjectSnoc(transformer, before + [posAbs], Vec2(e.0, e.1));
      } else {
        assert before + [posAbs] + [] == before + [posAbs];
      }
      count := count - 1;
    }
  }

  /** `reproject`. */
  method Reproject(lines: seq<seq<Geometry>>, offset: Vec2, endPos: EndPosition, transformer: Transform)
    returns (transformedLines: seq<seq<Coord>>)
    ensures transformedLines == Reprojected(lines, offset, endPos, transformer)
  {
    transformedLines := [];
    for i := 0 to |lines|
      invariant transformedLines == Reprojected(lines[..i], offset, endPos, transformer)
    {
      var transformedCoords := ReprojectLine(lines[i], offset, endPos, transformer);
      transformedLines := transformedLines + [transformedCoords];
      assert lines[..i + 1][..i] == lines[..i];
    }
    assert lines[..|lines|] == lines;
  }

  /** The coordinate pairs of all elements, element after element. */
  function Flatten(elements: seq<seq<Coord>>): seq<Coord>
  {
    if |elements| == 0 then [] else Flatten(elements[..|elements| - 1]) + elements[|elements| - 1]
  }

  /** A pair belongs to the flattened list exactly when it belongs to one of
      the elements. */
  lemma {:induction false} FlattenMembers(elements: seq<seq<Coord>>)
    ensures forall c :: c in Flatten(elements) <==> exists i :: 0 <= i < |elements| && c in elements[i]
  {
    if |elements| > 0 {
      var n := |elements| - 1;
      FlattenMembers(elements[..n]);
      forall c | c in Flatten(elements)
        ensures exists i :: 0 <= i < |elements| && c in elements[i]
      {
        if c !in elements[n] {
          var i :| 0 <= i < n && c in elements[..n][i];
          assert elements[..n][i] == elements[i];
        }
      }
      forall c, i | 0 <= i < |elements| && c in elements[i]
        ensures c in Flatten(elements)
      {
        if i < n {
          assert elements[..n][i] == elements[i];
        }
      }
    }
  }

  function Firsts(cs: seq<Coord>): seq<real>
  {
    if |cs| == 0 then [] else Firsts(cs[..|cs| - 1]) + [cs[|cs| - 1].0]
  }

  function Seconds(cs: seq<Coord>): seq<real>
  {
    if |cs| == 0 then [] else Seconds(cs[..|cs| - 1]) + [cs[|cs| - 1].1]
  }

  lemma {:induction false} FirstsSeconds(cs: seq<Coord>)
    ensures |Firsts(cs)| == |cs| && |Seconds(cs)| == |cs|
    ensures forall i :: 0 <= i < |cs| ==> Firsts(cs)[i] == cs[i].0 && Seconds(cs)[i] == cs[i].1
  {
    if |cs| > 0 {
      FirstsSeconds(cs[..|cs| - 1]);
    }
  }

  /** The class attributes `create_bounding_box` sets on `BoundingBox`. */
  datatype BoundingBox = BoundingBox(xMin: real, yMin: real, xMax: real, yMax: real)

  /** What `create_bounding_box` returns or raises: `min` of an empty list
      raises ValueError. */
  function BoundingBoxOf(elements: seq<seq<Coord>>): Result<BoundingBox>
  {
    var cs := Flatten(elements);
    if |cs| == 0 then Err(ValueError("min() arg is an empty sequence"))
    else
      FirstsSeconds(cs);
      Ok(BoundingBox(MinOf(Firsts(cs)), MinOf(Seconds(cs)), MaxOf(Firsts(cs)), MaxOf(Seconds(cs))))
  }

  /** `create_bounding_box` fails exactly when no element has a pair. */
  lemma BoundingBoxFails(elements: seq<seq<Coord>>)
    ensures BoundingBoxOf(elements).Err? <==> forall i :: 0 <= i < |elements| ==> |elements[i]| == 0
  {
    var cs := Flatten(elements);
    FlattenMembers(elements);
    forall i | 0 <= i < |elements| && |elements[i]| > 0
      ensures |cs| > 0
    {
      var c := elements[i][0];
      assert c in elements[i];
      assert c in cs;
    }
    if |cs| > 0 {
      assert cs[0] in cs;
    }
  }

  /** Otherwise its bounds lie below and above the first and second
      components of every pair of every element ... */
  lemma BoundingBoxCovers(elements: seq<seq<Coord>>, i: nat, c: Coord)
    requires BoundingBoxOf(elements).Ok?
    requires i < |elements| && c in elements[i]
    ensures var b := BoundingBoxOf(elements).value;
            b.xMin <= c.0 <= b.xMax && b.yMin <= c.1 <= b.yMax
  {
    var cs := Flatten(elements);
    FirstsSeconds(cs);
    var xs, ys := Firsts(cs), Seconds(cs);
    MinMaxOf(xs);
    MinMaxOf(ys);
    FlattenMembers(elements);
    assert c in cs;
    var j :| 0 <= j < |cs| && cs[j] == c;
    assert xs[j] == c.0 && ys[j] == c.1;
  }

  /** ... and each bound is a component of one of the pairs. */
  lemma BoundingBoxAttained(elements: seq<seq<Coord>>)
    requires BoundingBoxOf(elements).Ok?
    ensures var b := BoundingBoxOf(elements).value;
            (exists c :: c in Flatten(elements) && c.0 == b.xMin)
            && (exists c :: c in Flatten(elements) && c.0 == b.xMax)
            && (exists c :: c in Flatten(elements) && c.1 == b.yMin)
            && (exists c :: c in Flatten(elements) && c.1 == b.yMax)
  {
    var cs := Flatten(elements);
    FirstsSeconds(cs);
    var xs, ys := Firsts(cs), Seconds(cs);
    MinMaxOf(xs);
    MinMaxOf(ys);
    var b := BoundingBoxOf(elements).value;
    var a :| 0 <= a < |xs| && xs[a] == b.xMin;
    var d :| 0 <= d < |xs| && xs[d] == b.xMax;
    var e :| 0 <= e < |ys| && ys[e] == b.yMin;
    var f :| 0 <= f < |ys| && ys[f] == b.yMax;
    assert cs[a] in cs && cs[d] in cs && cs[e] in cs && cs[f] in cs;
  }

  /** `create_bounding_box`: gathers the first and the second components in
      two lists, then takes their `min` and `max`. */
  method CreateBoundingBox(elements: seq<seq<Coord>>) returns (r: Result<BoundingBox>)
    ensures r == BoundingBoxOf(elements)
  {
    var xCoords: seq<real> := [];
    var yCoords: seq<real> := [];
    for i := 0 to |elements|
      invariant xCoords == Firsts(Flatten(elements[..i])) && yCoords == Seconds(Flatten(elements[..i]))
    {
      var element := elements[i];
      ghost var pre := Flatten(elements[..i]);
      assert pre + element[..0] == pre;
      for k := 0 to |element|
        invariant xCoords == Firsts(pre + element[..k]) && yCoords == Seconds(pre + element[..k])
      {
        xCoords := xCoords + [element[k].0];
        yCoords := yCoords + [element[k].1];
        assert (pre + element[..k + 1])[..|pre + element[..k + 1]| - 1] == pre + element[..k];
      }
      assert element[..|element|] == element;
      assert elements[..i + 1][..i] == elements[..i];
    }
    assert elements[..|elements|] == elements;
    if |xCoords| == 0 {
      FirstsSeconds(Flatten(elements));
      return Err(ValueError("min() arg is an empty sequence"));
    }
    FirstsSeconds(Flatten(elements));
    r := Ok(BoundingBox(MinOf(xCoords), MinOf(yCoords), MaxOf(xCoords), MaxOf(yCoords)));
  }

  /** The polygon drawn for a box: its corners counter-clockwise from
      (xMin, yMin), back to the start. */
  function BoxRing(b: BoundingBox): seq<Coord>
  {
    [(b.xMin, b.yMin), (b.xMax, b.yMin), (b.xMax, b.yMax), (b.xMin, b.yMax), (b.xMin, b.yMin)]
  }

  predicate IsCorner(b: BoundingBox, c: Coord)
  {
    (c.0 == b.xMin || c.0 == b.xMax) && (c.1 == b.yMin || c.1 == b.yMax)
  }

  /** The ring is closed, has five points, visits every corner, and each of
      its four edges is parallel to an axis. */
  lemma BoxRingClosed(b: BoundingBox)
    ensures var r := BoxRing(b);
            |r| == 5 && r[0] == r[4] == (b.xMin, b.yMin)
            && (forall i :: 0 <= i < 5 ==> IsCorner(b, r[i]))
            && (forall c :: IsCorner(b, c) ==> c in r)
            && (forall i :: 0 <= i < 4 ==> r[i].0 == r[i + 1].0 || r[i].1 == r[i + 1].1)
  {
    var r := BoxRing(b);
    forall c | IsCorner(b, c)
      ensures c in r
    {
      if c.0 == b.xMin && c.1 == b.yMin {
        assert c == r[0];
      } else if c.0 == b.xMax && c.1 == b.yMin {
        assert c == r[1];
      } else if c.0 == b.xMax {
        assert c == r[2];
      } else {
        assert c == r[3];
      }
    }
  }

  /** A (lon, lat) pair as `json.dump` writes a tuple: a two-element array. */
  function CoordJson(c: Coord): Json
  {
    JArr([JNum(c.0), JNum(c.1)])
  }

  function CoordsJson(cs: seq<Coord>): seq<Json>
  {
    if |cs| == 0 then [] else CoordsJson(cs[..|cs| - 1]) + [CoordJson(cs[|cs| - 1])]
  }

  /** Reads the coordinate list back from its JSON form. */
  function CoordsFromJson(js: seq<Json>): Option<seq<Coord>>
  {
    if |js| == 0 then Some([])
    else
      match CoordsFromJson(js[..|js| - 1])
      case None => None
      case Some(cs) =>
        match js[|js| - 1]
        case JArr(p) =>
          if |p| == 2 && p[0].JNum? && p[1].JNum? then Some(cs + [(p[0].r, p[1].r)]) else None
        case _ => None
  }

  /** The coordinates of a feature can be read back exactly. */
  lemma {:induction false} CoordsJsonRoundTrip(cs: seq<Coord>)
    ensures |CoordsJson(cs)| == |cs|
    ensures CoordsFromJson(CoordsJson(cs)) == Some(cs)
  {
    if |cs| > 0 {
      var n := |cs| - 1;
      CoordsJsonRoundTrip(cs[..n]);
      var js := CoordsJson(cs);
      assert js[..|js| - 1] == CoordsJson(cs[..n]);
      assert cs[..n] + [(cs[n].0, cs[n].1)] == cs;
    }
  }

  /** The geometry of a feature. */
  function GeometryJson(element: seq<Coord>, isPolygon: bool): Json
  {
    JObj([("type", JStr(if isPolygon then "MultiPolygon" else "LineString")),
          ("coordinates", JArr(CoordsJson(element)))])
  }

  /** One GeoJSON feature for one element. */
  function Feature(element: seq<Coord>, isPolygon: bool): Json
  {
    JObj([("type", JStr("Feature")), ("geometry", GeometryJson(element, isPolygon)), ("properties", JObj([]))])
  }

  /** The document `create_geojson` writes. */
  function GeoJson(features: seq<Json>): Json
  {
    JObj([("type", JStr("FeatureCollection")), ("features", JArr(features))])
  }

  function Features(elements: seq<seq<Coord>>, isPolygon: bool): seq<Json>
  {
    if |elements| == 0 then [] else Features(elements[..|elements| - 1], isPolygon) + [Feature(elements[|elements| - 1], isPolygon)]
  }

  /** The loop of `create_geojson`, and the document it writes. */
  method CreateGeoJson(elements: seq<seq<Coord>>, isPolygon: bool) returns (geojson: Json)
    ensures geojson == GeoJson(Features(elements, isPolygon))
  {
    var features: seq<Json> := [];
    for i := 0 to |elements|
      invariant features == Features(elements[..i], isPolygon)
    {
      var element := elements[i];
      var geometryType := if isPolygon then "MultiPolygon" else "LineString";
      var geometry := JObj([("type", JStr(geometryType)), ("coordinates", JArr(CoordsJson(element)))]);
      var feature := JObj([("type", JStr("Feature")), ("geometry", geometry), ("properties", JObj([]))]);
      features := features + [feature];
      assert elements[..i + 1][..i] == elements[..i];
    }
    assert elements[..|elements|] == elements;
    geojson := JObj([("type", JStr("FeatureCollection")), ("features", JArr(features))]);
  }

  lemma {:induction false} FeaturesPointwise(elements: seq<seq<Coord>>, isPolygon: bool)
    ensures |Features(elements, isPolygon)| == |elements|
    ensures forall i :: 0 <= i < |elements| ==> Features(elements, isPolygon)[i] == Feature(elements[i], isPolygon)
  {
    if |elements| > 0 {
      var n := |elements| - 1;
      FeaturesPointwise(elements[..n], isPolygon);
      assert forall i :: 0 <= i < n ==> elements[..n][i] == elements[i];
    }
  }

  /** A feature has type "Feature", empty properties and a geometry ... */
  lemma FeatureShape(element: seq<Coord>, isPolygon: bool)
    ensures var f := Feature(element, isPolygon);
            Index(f, "type") == Ok(JStr("Feature"))
            && Index(f, "properties") == Ok(JObj([]))
            && Index(f, "geometry") == Ok(GeometryJson(element, isPolygon))
  {
    var f := Feature(element, isPolygon);
    assert f.fields[1..][1..] == [("properties", JObj([]))];
    assert Get(f.fields[1..][1..], "properties") == Some(JObj([]));
  }

  /** ... which is a MultiPolygon exactly when `isPolygon` holds and whose
      coordinates read back as the element. */
  lemma GeometryShape(element: seq<Coord>, isPolygon: bool)
    ensures var g := GeometryJson(element, isPolygon);
            (Index(g, "type") == Ok(JStr("MultiPolygon")) <==> isPolygon)
            && Index(g, "coordinates").Ok? && Index(g, "coordinates").value.JArr?
            && CoordsFromJson(Index(g, "coordinates").value.items) == Some(element)
  {
    CoordsJsonRoundTrip(element);
    var g := GeometryJson(element, isPolygon);
    assert g.fields[1..] == [("coordinates", JArr(CoordsJson(element)))];
    assert Get(g.fields[1..], "coordinates") == Some(JArr(CoordsJson(element)));
    assert "LineString" != "MultiPolygon";
  }

  /** The document is a FeatureCollection whose features are one feature per
      element, in element order. */
  lemma GeoJsonFeatures(elements: seq<seq<Coord>>, isPolygon: bool)
    ensures var doc := GeoJson(Features(elements, isPolygon));
            Index(doc, "type") == Ok(JStr("FeatureCollection"))
            && Index(doc, "features").Ok? && Index(doc, "features").value.JArr?
            && |Index(doc, "features").value.items| == |elements|
            && forall i :: 0 <= i < |elements| ==> Index(doc, "features").value.items[i] == Feature(elements[i], isPolygon)
  {
    FeaturesPointwise(elements, isPolygon);
  }
}

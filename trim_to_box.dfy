/**
 * `xodr_trim_to_box`: axis-aligned boxes over the plane, the box of a road
 * built from its plan-view geometries, and the removal of every road whose
 * box does not overlap a given box. Coordinates are exact reals; the end
 * point of a geometry (cosine and sine of its heading) is a parameter.
 */
module TrimToBox {
  import opened PlanView

  function Pow2(n: nat): (r: nat)
    ensures r >= 1
  {
    if n == 0 then 1 else 2 * Pow2(n - 1)
  }

  /** `sys.float_info.max`, the largest finite double: (2^53 - 1) * 2^971. */
  const FloatMax: real := (Pow2(53) - 1) as real * Pow2(971) as real

  lemma FloatMaxPositive()
    ensures FloatMax > 0.0
  {
    assert Pow2(53) == 2 * Pow2(52);
  }

  /** The four bounds of a `Box2D`, in the order of its constructor. */
  datatype Bounds = Bounds(xMin: real, xMax: real, yMin: real, yMax: real)

  /** `Box2D()` with its default arguments: every minimum at the largest
      double and every maximum at its negation, so the first point expands
      it to that point. */
  const Sentinel: Bounds := Bounds(FloatMax, -FloatMax, FloatMax, -FloatMax)

  function Min(a: real, b: real): real { if b < a then b else a }
  function Max(a: real, b: real): real { if b > a then b else a }

  /** `intersection`: the overlaps of the two x ranges and of the two y
      ranges, clipped at 0, must both be positive. */
  predicate Intersects(a: Bounds, b: Bounds)
  {
    var xOverlap := Max(0.0, Min(a.xMax, b.xMax) - Max(a.xMin, b.xMin));
    var yOverlap := Max(0.0, Min(a.yMax, b.yMax) - Max(a.yMin, b.yMin));
    xOverlap > 0.0 && yOverlap > 0.0
  }

  /** The box has a positive extent on both axes. */
  predicate Open(b: Bounds)
  {
    b.xMin < b.xMax && b.yMin < b.yMax
  }

  /** Two boxes intersect exactly when both have a positive extent and
      their open ranges overlap on both axes. */
  lemma IntersectsIff(a: Bounds, b: Bounds)
    ensures Intersects(a, b) <==> Open(a) && Open(b) && a.xMin < b.xMax && b.xMin < a.xMax && a.yMin < b.yMax && b.yMin < a.yMax
  {
  }

  lemma IntersectsSymmetric(a: Bounds, b: Bounds)
    ensures Intersects(a, b) == Intersects(b, a)
  {
    IntersectsIff(a, b);
    IntersectsIff(b, a);
  }

  /** Boxes that only share an edge do not intersect. */
  lemma TouchingDoNotIntersect(a: Bounds, b: Bounds)
    requires a.xMax == b.xMin || a.yMax == b.yMin
    ensures !Intersects(a, b) && !Intersects(b, a)
  {
    IntersectsIff(a, b);
    IntersectsIff(b, a);
  }

  /** The default box intersects no box at all. */
  lemma SentinelIntersectsNothing(b: Bounds)
    ensures !Intersects(Sentinel, b) && !Intersects(b, Sentinel)
  {
    FloatMaxPositive();
    IntersectsIff(Sentinel, b);
    IntersectsIff(b, Sentinel);
  }

  /** `outer` includes the extent of `inner` on both axes. */
  predicate Covers(outer: Bounds, inner: Bounds)
  {
    outer.xMin <= inner.xMin && inner.xMax <= outer.xMax && outer.yMin <= inner.yMin && inner.yMax <= outer.yMax
  }

  /** The point (x, y) lies in `b`, edges included. */
  predicate Holds(b: Bounds, x: real, y: real)
  {
    b.xMin <= x <= b.xMax && b.yMin <= y <= b.yMax
  }

  /** `expandByPos(x, y)`. */
  function ExpandPos(b: Bounds, x: real, y: real): Bounds
  {
    Bounds(if x < b.xMin then x else b.xMin, if x > b.xMax then x else b.xMax,
           if y < b.yMin then y else b.yMin, if y > b.yMax then y else b.yMax)
  }

  /** After `expandByPos(x, y)` the box holds the point, no bound has shrunk,
      and it is the smallest such box. */
  lemma ExpandPosHolds(b: Bounds, x: real, y: real)
    ensures Holds(ExpandPos(b, x, y), x, y) && Covers(ExpandPos(b, x, y), b)
    ensures forall c :: Covers(c, b) && Holds(c, x, y) ==> Covers(c, ExpandPos(b, x, y))
  {
  }

  /** `expandByBox(e)`. */
  function ExpandBox(a: Bounds, e: Bounds): Bounds
  {
    Bounds(if e.xMin < a.xMin then e.xMin else a.xMin, if e.xMax > a.xMax then e.xMax else a.xMax,
           if e.yMin < a.yMin then e.yMin else a.yMin, if e.yMax > a.yMax then e.yMax else a.yMax)
  }

  /** After `expandByBox(e)` the box covers its old extent and `e`, and is
      the smallest box that does. */
  lemma ExpandBoxCovers(a: Bounds, e: Bounds)
    ensures Covers(ExpandBox(a, e), a) && Covers(ExpandBox(a, e), e)
    ensures forall c :: Covers(c, a) && Covers(c, e) ==> Covers(c, ExpandBox(a, e))
  {
  }

  /** `expandBySeam(seam)`. */
  function Widen(b: Bounds, seam: real): Bounds
  {
    Bounds(b.xMin - seam, b.xMax + seam, b.yMin - seam, b.yMax + seam)
  }

  /** Every bound moves outward by exactly `seam`: two widenings add up, a
      zero seam changes nothing and a non-negative one covers the old box. */
  lemma WidenMoves(b: Bounds, s: real, t: real)
    ensures Widen(Widen(b, s), t) == Widen(b, s + t)
    ensures Widen(b, 0.0) == b
    ensures s >= 0.0 ==> Covers(Widen(b, s), b)
    ensures Widen(b, s).xMax - Widen(b, s).xMin == b.xMax - b.xMin + 2.0 * s
    ensures Widen(b, s).yMax - Widen(b, s).yMin == b.yMax - b.yMin + 2.0 * s
  {
  }

  class Box2D {
    var xMin: real
    var xMax: real
    var yMin: real
    var yMax: real

    function Value(): Bounds
      reads this
    {
      Bounds(xMin, xMax, yMin, yMax)
    }

    /** `Box2D(xMin, xMax, yMin, yMax)`. */
    constructor (xMin: real, xMax: real, yMin: real, yMax: real)
      ensures Value() == Bounds(xMin, xMax, yMin, yMax)
    {
      this.xMin := xMin;
      this.xMax := xMax;
      this.yMin := yMin;
      this.yMax := yMax;
    }

    /** `Box2D()`. */
    constructor Empty()
      ensures Value() == Sentinel
    {
      xMin := FloatMax;
      xMax := -FloatMax;
      yMin := FloatMax;
      yMax := -FloatMax;
    }

    method Intersection(box2: Box2D) returns (r: bool)
      ensures r <==> Open(Value()) && Open(box2.Value()) && xMin < box2.xMax && box2.xMin < xMax && yMin < box2.yMax && box2.yMin < yMax
      ensures r == Intersects(Value(), box2.Value())
    {
      var xOverlap := Max(0.0, Min(xMax, box2.xMax) - Max(xMin, box2.xMin));
      var yOverlap := Max(0.0, Min(yMax, box2.yMax) - Max(yMin, box2.yMin));
      r := xOverlap > 0.0 && yOverlap > 0.0;
      IntersectsIff(Value(), box2.Value());
    }

    method ExpandByBox(boxExpand: Box2D)
      modifies this
      ensures Value() == ExpandBox(old(Value()), old(boxExpand.Value()))
    {
      ghost var e := boxExpand.Value();
      if boxExpand.xMin < xMin {
        xMin := boxExpand.xMin;
      }
      if boxExpand.xMax > xMax {
        xMax := boxExpand.xMax;
      }
      if boxExpand.yMin < yMin {
        yMin := boxExpand.yMin;
      }
      if boxExpand.yMax > yMax {
        yMax := boxExpand.yMax;
      }
    }

    method ExpandByPos(x: real, y: real)
      modifies this
      ensures Value() == ExpandPos(old(Value()), x, y)
    {
      if x < xMin {
        xMin := x;
      }
      if x > xMax {
        xMax := x;
      }
      if y < yMin {
        yMin := y;
      }
      if y > yMax {
        yMax := y;
      }
    }

    method ExpandBySeam(seam: real)
      modifies this
      ensures Value() == Widen(old(Value()), seam)
    {
      xMin := xMin - seam;
      xMax := xMax + seam;
      yMin := yMin - seam;
      yMax := yMax + seam;
    }
  }

  /** The box `calculate_bounding_box` gives one geometry: its start and
      end point, widened by 10. */
  function GeometryBounds(g: Geometry, endPos: EndPosition): Bounds
  {
    var e := endPos(g.x, g.y, g.hdg, g.length);
    Widen(ExpandPos(ExpandPos(Sentinel, g.x, g.y), e.0, e.1), 10.0)
  }

  /** A geometry's box holds its start and end point with 10 to spare on
      every side. */
  lemma GeometryBoundsHolds(g: Geometry, endPos: EndPosition)
    ensures var b := GeometryBounds(g, endPos);
            var e := endPos(g.x, g.y, g.hdg, g.length);
            Covers(b, Bounds(g.x - 10.0, g.x + 10.0, g.y - 10.0, g.y + 10.0))
            && Covers(b, Bounds(e.0 - 10.0, e.0 + 10.0, e.1 - 10.0, e.1 + 10.0))
  {
    var e := endPos(g.x, g.y, g.hdg, g.length);
    ExpandPosHolds(Sentinel, g.x, g.y);
    ExpandPosHolds(ExpandPos(Sentinel, g.x, g.y), e.0, e.1);
  }

  /** Within the range of doubles, a geometry's box is exactly the box of
      its two points widened by 10. */
  lemma GeometryBoundsExact(g: Geometry, endPos: EndPosition)
    requires var e := endPos(g.x, g.y, g.hdg, g.length);
             -FloatMax <= g.x <= FloatMax && -FloatMax <= g.y <= FloatMax
             && -FloatMax <= e.0 <= FloatMax && -FloatMax <= e.1 <= FloatMax
    ensures var e := endPos(g.x, g.y, g.hdg, g.length);
            GeometryBounds(g, endPos)
            == Bounds(Min(g.x, e.0) - 10.0, Max(g.x, e.0) + 10.0, Min(g.y, e.1) - 10.0, Max(g.y, e.1) + 10.0)
  {
  }

  method CalculateBoundingBox(x: real, y: real, hdg: real, length: real, endPos: EndPosition) returns (box: Box2D)
    ensures fresh(box) && box.Value() == GeometryBounds(Geometry(x, y, hdg, length), endPos)
  {
    var endX, endY := endPos(x, y, hdg, length).0, endPos(x, y, hdg, length).1;
    box := new Box2D.Empty();
    box.ExpandByPos(x, y);
    box.ExpandByPos(endX, endY);
    box.ExpandBySeam(10.0);
  }

  /** The default box expanded by `box(g)` for each geometry `g` in turn. */
  function Hull(geoms: seq<Geometry>, box: Geometry -> Bounds): Bounds
  {
    if |geoms| == 0 then Sentinel
    else ExpandBox(Hull(geoms[..|geoms| - 1], box), box(geoms[|geoms| - 1]))
  }

  function BoxOf(endPos: EndPosition): Geometry -> Bounds
  {
    g => GeometryBounds(g, endPos)
  }

  /** The box `getRoadBounding` gives a road: the default box expanded by
      the box of each geometry in turn. */
  function RoadBounds(geoms: seq<Geometry>, endPos: EndPosition): Bounds
  {
    Hull(geoms, BoxOf(endPos))
  }

  /** The hull covers the box of each geometry. */
  lemma {:induction false} HullCovers(geoms: seq<Geometry>, box: Geometry -> Bounds, i: nat)
    requires i < |geoms|
    ensures Covers(Hull(geoms, box), box(geoms[i]))
  {
    var n := |geoms| - 1;
    var prev := Hull(geoms[..n], box);
    ExpandBoxCovers(prev, box(geoms[n]));
    if i < n {
      assert geoms[..n][i] == geoms[i];
      HullCovers(geoms[..n], box, i);
      CoversTransitive(Hull(geoms, box), prev, box(geoms[i]));
    }
  }

  /** A road's box covers the box of each of its geometries. */
  lemma RoadBoundsCovers(geoms: seq<Geometry>, endPos: EndPosition, i: nat)
    requires i < |geoms|
    ensures Covers(RoadBounds(geoms, endPos), GeometryBounds(geoms[i], endPos))
  {
    HullCovers(geoms, BoxOf(endPos), i);
  }

  lemma CoversTransitive(a: Bounds, b: Bounds, c: Bounds)
    requires Covers(a, b) && Covers(b, c)
    ensures Covers(a, c)
  {
  }

  /** Every geometry's start and end point lie in the road's box with 10 to
      spare; a road without geometries keeps the default box. */
  lemma RoadBoundsHolds(geoms: seq<Geometry>, endPos: EndPosition, i: nat)
    requires i < |geoms|
    ensures var g := geoms[i];
            var e := endPos(g.x, g.y, g.hdg, g.length);
            var b := RoadBounds(geoms, endPos);
            Covers(b, Bounds(g.x - 10.0, g.x + 10.0, g.y - 10.0, g.y + 10.0))
            && Covers(b, Bounds(e.0 - 10.0, e.0 + 10.0, e.1 - 10.0, e.1 + 10.0))
  {
    RoadBoundsCovers(geoms, endPos, i);
    GeometryBoundsHolds(geoms[i], endPos);
  }

  lemma RoadBoundsEmpty(endPos: EndPosition)
    ensures RoadBounds([], endPos) == Sentinel
  {
  }

  method GetRoadBounding(geoms: seq<Geometry>, endPos: EndPosition) returns (boxRoad: Box2D)
    ensures fresh(boxRoad) && boxRoad.Value() == RoadBounds(geoms, endPos)
  {
    boxRoad := new Box2D.Empty();
    for i := 0 to |geoms|
      invariant fresh(boxRoad) && boxRoad.Value() == Hull(geoms[..i], BoxOf(endPos))
    {
      var g := geoms[i];
      var boxGeom := CalculateBoundingBox(g.x, g.y, g.hdg, g.length, endPos);
      assert boxGeom.Value() == BoxOf(endPos)(g);
      boxRoad.ExpandByBox(boxGeom);
      assert geoms[..i + 1][..i] == geoms[..i];
    }
    assert geoms[..|geoms|] == geoms;
  }

  /** A child of the OpenDRIVE root: a `<road>` with its geometries, or any
      other element. */
  datatype Child = Road(geometries: seq<Geometry>) | Other(tag: string)

  /** The children `reduceXODR` leaves: every non-road, and every road whose
      box intersects `box`. */
  predicate Keep(c: Child, box: Bounds, endPos: EndPosition)
  {
    c.Other? || Intersects(RoadBounds(c.geometries, endPos), box)
  }

  /** `Keep` for one fixed box, as a test on children. */
  function Keeper(box: Bounds, endPos: EndPosition): Child -> bool
  {
    c => Keep(c, box, endPos)
  }

  /** The children that pass `keep`, in their original order. */
  function Filter<X>(cs: seq<X>, keep: X -> bool): seq<X>
  {
    if |cs| == 0 then []
    else Filter(cs[..|cs| - 1], keep) + (if keep(cs[|cs| - 1]) then [cs[|cs| - 1]] else [])
  }

  /** Exactly the children that pass the test remain. */
  lemma {:induction false} FilterMembers<X>(cs: seq<X>, keep: X -> bool)
    ensures forall c :: c in Filter(cs, keep) <==> c in cs && keep(c)
  {
    if |cs| > 0 {
      var n := |cs| - 1;
      FilterMembers(cs[..n], keep);
      assert cs == cs[..n] + [cs[n]];
    }
  }

  /** Filtering keeps the order: it works piece by piece. */
  lemma {:induction false} FilterAppend<X>(a: seq<X>, b: seq<X>, keep: X -> bool)
    ensures Filter(a + b, keep) == Filter(a, keep) + Filter(b, keep)
  {
    if |b| == 0 {
      assert a + b == a;
    } else {
      var n := |b| - 1;
      assert (a + b)[..|a + b| - 1] == a + b[..n];
      assert (a + b)[|a + b| - 1] == b[n];
      FilterAppend(a, b[..n], keep);
    }
  }

  lemma FilterStep<X>(cs: seq<X>, i: nat, keep: X -> bool)
    requires i < |cs|
    ensures Filter(cs[..i + 1], keep) == Filter(cs[..i], keep) + (if keep(cs[i]) then [cs[i]] else [])
  {
    assert cs[..i + 1][..i] == cs[..i];
  }

  /** One step of filtering in place: `children` holds the kept part of
      `cs[..i]` followed by `cs[i..]`; removing the element at `j` when it
      fails the test, or moving past it when it passes, keeps that shape. */
  lemma FilterInPlaceStep<X>(children: seq<X>, cs: seq<X>, i: nat, j: nat, keep: X -> bool, k: bool)
    requires i < |cs| && children == Filter(cs[..i], keep) + cs[i..] && j == |Filter(cs[..i], keep)|
    requires k == keep(cs[i])
    ensures j < |children|
    ensures var next := if k then children else children[..j] + children[j + 1..];
            next == Filter(cs[..i + 1], keep) + cs[i + 1..]
            && (if k then j + 1 else j) == |Filter(cs[..i + 1], keep)|
  {
    var pre := Filter(cs[..i], keep);
    var rest := cs[i + 1..];
    FilterStep(cs, i, keep);
    assert cs[i..] == [cs[i]] + rest;
    assert children == pre + [cs[i]] + rest;
    if !k {
      assert children[..j] == pre;
      assert children[j + 1..] == rest;
    }
  }

  /** A road without geometries never survives. */
  lemma EmptyRoadRemoved(box: Bounds, endPos: EndPosition)
    ensures !Keep(Road([]), box, endPos)
  {
    SentinelIntersectsNothing(box);
  }

  /** The test inside the loop of `reduceXODR`: a road is kept when the box
      built from its geometries intersects `box`; other children always stay. */
  method KeepChild(c: Child, box: Box2D, endPos: EndPosition) returns (keep: bool)
    ensures keep == Keep(c, box.Value(), endPos)
  {
    match c
    case Other(_) =>
      keep := true;
    case Road(geoms) =>
      var boxRoad := GetRoadBounding(geoms, endPos);
      keep := boxRoad.Intersection(box);
  }

  /** The root element of the OpenDRIVE tree and its children. */
  class XodrRoot {
    var children: seq<Child>

    constructor (children: seq<Child>)
      ensures this.children == children
    {
      this.children := children;
    }

    /** `root.remove(child)` for the child at position `j`. */
    method RemoveAt(j: nat)
      requires j < |children|
      modifies this
      ensures children == old(children[..j] + children[j + 1..])
    {
      children := children[..j] + children[j + 1..];
    }

    /** The loop of `reduceXODR`: each road whose box does not intersect
        `box` is removed; the other children stay in order. */
    method ReduceRoads(box: Box2D, endPos: EndPosition)
      modifies this
      ensures children == Filter(old(children), Keeper(box.Value(), endPos))
    {
      ghost var cs := children;
      ghost var keeper := Keeper(box.Value(), endPos);
      var roads := children;
      var j := 0;
      for i := 0 to |roads|
        invariant children == Filter(cs[..i], keeper) + cs[i..]
        invariant j == |Filter(cs[..i], keeper)|
      {
        var keep := KeepChild(roads[i], box, endPos);
        FilterInPlaceStep(children, cs, i, j, keeper, keep);
        if !keep {
          RemoveAt(j);
        } else {
          j := j + 1;
        }
      }
      assert cs[..|cs|] == cs;
    }
  }

  /** The box `main` builds from `--bbox x_min y_min x_max y_max`, as
      written: the values go positionally to (xMin, xMax, yMin, yMax). */
  function MainBoxAsWritten(xMinArg: real, yMinArg: real, xMaxArg: real, yMaxArg: real): Bounds
  {
    Bounds(xMinArg, yMinArg, xMaxArg, yMaxArg)
  }

  /** For the square from (0, 0) to (100, 100) the box as written has an
      empty x range, so every road is removed. */
  lemma MainBoxAsWrittenRemovesAll(endPos: EndPosition, c: Child)
    requires c.Road?
    ensures !Keep(c, MainBoxAsWritten(0.0, 0.0, 100.0, 100.0), endPos)
  {
    IntersectsIff(RoadBounds(c.geometries, endPos), MainBoxAsWritten(0.0, 0.0, 100.0, 100.0));
  }

  /** The box the command line means: x from `x_min` to `x_max`, y from
      `y_min` to `y_max`. */
  function MainBox(xMinArg: real, yMinArg: real, xMaxArg: real, yMaxArg: real): Bounds
  {
    Bounds(xMinArg, xMaxArg, yMinArg, yMaxArg)
  }

  /** With the intended box, a road survives exactly when its box overlaps
      the requested rectangle on both axes. */
  lemma MainBoxKeeps(xMinArg: real, yMinArg: real, xMaxArg: real, yMaxArg: real, endPos: EndPosition, geoms: seq<Geometry>)
    ensures var r := RoadBounds(geoms, endPos);
            Keep(Road(geoms), MainBox(xMinArg, yMinArg, xMaxArg, yMaxArg), endPos)
            <==> Open(r) && xMinArg < xMaxArg && yMinArg < yMaxArg
                 && r.xMin < xMaxArg && xMinArg < r.xMax && r.yMin < yMaxArg && yMinArg < r.yMax
  {
    IntersectsIff(RoadBounds(geoms, endPos), MainBox(xMinArg, yMinArg, xMaxArg, yMaxArg));
  }
}

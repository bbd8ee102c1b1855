/**
 * `xodr_calc_box`: the bounding box of all plan-view points of an
 * OpenDRIVE file. The box starts at (inf, inf, -inf, -inf) and each point
 * updates it in place with `min` and `max`.
 */
module CalcBox {
  import opened PlanView
  import opened PyMinMax

  /** The four fields of a `Box`, in the order of its constructor. */
  datatype BoxValue = BoxValue(xMin: Ext, yMin: Ext, xMax: Ext, yMax: Ext)

  /** `initialize_bounding_box`: every bound at the wrong infinity. */
  const Initial: BoxValue := BoxValue(PosInf, PosInf, NegInf, NegInf)

  /** The point lies in the box, edges included. */
  predicate Contains(b: BoxValue, p: Vec2)
  {
    LessEq(b.xMin, Fin(p.x)) && LessEq(Fin(p.x), b.xMax) && LessEq(b.yMin, Fin(p.y)) && LessEq(Fin(p.y), b.yMax)
  }

  /** `outer` reaches at least as far as `inner` on every side. */
  predicate Within(inner: BoxValue, outer: BoxValue)
  {
    LessEq(outer.xMin, inner.xMin) && LessEq(inner.xMax, outer.xMax)
    && LessEq(outer.yMin, inner.yMin) && LessEq(inner.yMax, outer.yMax)
  }

  /** The box after `update_bounding_box(box, p)`. */
  function Include(b: BoxValue, p: Vec2): BoxValue
  {
    BoxValue(ExtMin(b.xMin, Fin(p.x)), ExtMin(b.yMin, Fin(p.y)), ExtMax(b.xMax, Fin(p.x)), ExtMax(b.yMax, Fin(p.y)))
  }

  /** The updated box contains the point, never shrinks, and is the
      smallest box that does both. */
  lemma IncludeContains(b: BoxValue, p: Vec2)
    ensures Contains(Include(b, p), p) && Within(b, Include(b, p))
    ensures forall c :: Within(b, c) && Contains(c, p) ==> Within(Include(b, p), c)
  {
  }

  /** Whatever the box contained it still contains after an update. */
  lemma IncludeKeeps(b: BoxValue, p: Vec2, q: Vec2)
    requires Contains(b, q)
    ensures Contains(Include(b, p), q)
  {
  }

  /** The box reached from `Initial` by updating with each point in turn. */
  function PointsBox(pts: seq<Vec2>): BoxValue
  {
    if |pts| == 0 then Initial
    else Include(PointsBox(pts[..|pts| - 1]), pts[|pts| - 1])
  }

  lemma PointsBoxSnoc(pts: seq<Vec2>, p: Vec2)
    ensures PointsBox(pts + [p]) == Include(PointsBox(pts), p)
  {
    assert (pts + [p])[..|pts|] == pts;
  }

  /** The box contains every point it was updated with. */
  lemma {:induction false} PointsBoxContains(pts: seq<Vec2>, i: nat)
    requires i < |pts|
    ensures Contains(PointsBox(pts), pts[i])
  {
    var n := |pts| - 1;
    IncludeContains(PointsBox(pts[..n]), pts[n]);
    if i < n {
      assert pts[..n][i] == pts[i];
      PointsBoxContains(pts[..n], i);
      IncludeKeeps(PointsBox(pts[..n]), pts[n], pts[i]);
    }
  }

  /** Once there is a point, every bound is finite and is the coordinate of
      one of the points. */
  lemma {:induction false} PointsBoxAttained(pts: seq<Vec2>)
    requires |pts| > 0
    ensures var b := PointsBox(pts);
            (exists i :: 0 <= i < |pts| && b.xMin == Fin(pts[i].x))
            && (exists i :: 0 <= i < |pts| && b.xMax == Fin(pts[i].x))
            && (exists i :: 0 <= i < |pts| && b.yMin == Fin(pts[i].y))
            && (exists i :: 0 <= i < |pts| && b.yMax == Fin(pts[i].y))
  {
    var n := |pts| - 1;
    var prev := pts[..n];
    var b := PointsBox(pts);
    if n > 0 {
      PointsBoxAttained(prev);
      var pb := PointsBox(prev);
      var a :| 0 <= a < n && pb.xMin == Fin(prev[a].x);
      var c :| 0 <= c < n && pb.xMax == Fin(prev[c].x);
      var d :| 0 <= d < n && pb.yMin == Fin(prev[d].y);
      var e :| 0 <= e < n && pb.yMax == Fin(prev[e].y);
      assert prev[a] == pts[a] && prev[c] == pts[c] && prev[d] == pts[d] && prev[e] == pts[e];
      assert b.xMin == Fin(pts[a].x) || b.xMin == Fin(pts[n].x);
      assert b.xMax == Fin(pts[c].x) || b.xMax == Fin(pts[n].x);
      assert b.yMin == Fin(pts[d].y) || b.yMin == Fin(pts[n].y);
      assert b.yMax == Fin(pts[e].y) || b.yMax == Fin(pts[n].y);
    } else {
      assert b == Include(Initial, pts[0]);
    }
  }

  /** A Python `Box` object. */
  class Box {
    var xMin: Ext
    var yMin: Ext
    var xMax: Ext
    var yMax: Ext

    function Value(): BoxValue
      reads this
    {
      BoxValue(xMin, yMin, xMax, yMax)
    }

    constructor (xMin: Ext, yMin: Ext, xMax: Ext, yMax: Ext)
      ensures Value() == BoxValue(xMin, yMin, xMax, yMax)
    {
      this.xMin := xMin;
      this.yMin := yMin;
      this.xMax := xMax;
      this.yMax := yMax;
    }
  }

  method InitializeBoundingBox() returns (box: Box)
    ensures fresh(box) && box.Value() == Initial
  {
    box := new Box(PosInf, PosInf, NegInf, NegInf);
  }

  /** `update_bounding_box`: changes the box in place and returns it. */
  method UpdateBoundingBox(box: Box, point: Vec2) returns (r: Box)
    modifies box
    ensures r == box && box.Value() == Include(old(box.Value()), point)
  {
    box.xMin := ExtMin(box.xMin, Fin(point.x));
    box.xMax := ExtMax(box.xMax, Fin(point.x));
    box.yMin := ExtMin(box.yMin, Fin(point.y));
    box.yMax := ExtMax(box.yMax, Fin(point.y));
    r := box;
  }

  /** One more geometry of the line: its start, and its end when it is the
      last one. */
  lemma EmittedNext(pre: seq<Vec2>, line: seq<Geometry>, offset: Vec2, endPos: EndPosition, k: nat)
    requires k < |line|
    ensures var before := pre + Emitted(line, offset, endPos, k);
            pre + Emitted(line, offset, endPos, k + 1)
            == before + [Start(line[k], offset)]
               + (if |line| - 1 - k == 0 then [End(line[k], offset, endPos)] else [])
  {
  }

  /** One pass of the inner loop of `calcBox`: the geometry's start, and its
      end when the down-counter `count` has reached zero. */
  method AddGeometry(box: Box, line: seq<Geometry>, offset: Vec2, endPos: EndPosition, ghost pre: seq<Vec2>, k: nat, count: int)
    requires k < |line| && count == |line| - 1 - k
    requires box.Value() == PointsBox(pre + Emitted(line, offset, endPos, k))
    modifies box
    ensures box.Value() == PointsBox(pre + Emitted(line, offset, endPos, k + 1))
  {
    var g := line[k];
    ghost var before := pre + Emitted(line, offset, endPos, k);
    EmittedNext(pre, line, offset, endPos, k);
    var posAbs := Vec2(g.x + offset.x, g.y + offset.y);
    var _ := UpdateBoundingBox(box, posAbs);
    PointsBoxSnoc(before, posAbs);
    if count == 0 {
      var e := endPos(posAbs.x, posAbs.y, g.hdg, g.length);
      var endPoint := Vec2(e.0, e.1);
      var _ := UpdateBoundingBox(box, endPoint);
      PointsBoxSnoc(before + [posAbs], endPoint);
    } else {
      assert before + [posAbs] + [] == before + [posAbs];
    }
  }

  /** The inner loop of `calcBox` over one line, with its `count`
      down-counter. */
  method AddLine(box: Box, line: seq<Geometry>, offset: Vec2, endPos: EndPosition, ghost pre: seq<Vec2>)
    requires box.Value() == PointsBox(pre)
    modifies box
    ensures box.Value() == PointsBox(pre + LinePoints(line, offset, endPos))
  {
    var count := |line| - 1;
    assert pre + Emitted(line, offset, endPos, 0) == pre;
    for k := 0 to |line|
      invariant count == |line| - 1 - k
      invariant box.Value() == PointsBox(pre + Emitted(line, offset, endPos, k))
    {
      AddGeometry(box, line, offset, endPos, pre, k, count);
      count := count - 1;
    }
  }

  /** `calcBox`. */
  method CalculateBox(lines: seq<seq<Geometry>>, offset: Vec2, endPos: EndPosition) returns (boundingBox: Box)
    ensures fresh(boundingBox) && boundingBox.Value() == PointsBox(AllPoints(lines, offset, endPos))
  {
    boundingBox := InitializeBoundingBox();
    for i := 0 to |lines|
      invariant fresh(boundingBox) && boundingBox.Value() == PointsBox(AllPoints(lines[..i], offset, endPos))
    {
      AddLine(boundingBox, lines[i], offset, endPos, AllPoints(lines[..i], offset, endPos));
      assert lines[..i + 1][..i] == lines[..i];
    }
    assert lines[..|lines|] == lines;
  }

  /** The box of `calcBox` contains every geometry start moved by the
      offset. */
  lemma CalculateBoxContainsStarts(lines: seq<seq<Geometry>>, offset: Vec2, endPos: EndPosition, i: nat, k: nat)
    requires i < |lines| && k < |lines[i]|
    ensures Contains(PointsBox(AllPoints(lines, offset, endPos)), Start(lines[i][k], offset))
  {
    var pts := AllPoints(lines, offset, endPos);
    AllPointsStarts(lines, offset, endPos, i, k);
    var j :| 0 <= j < |pts| && pts[j] == Start(lines[i][k], offset);
    PointsBoxContains(pts, j);
  }

  /** With no lines, or only empty ones, `calcBox` returns the initial box. */
  lemma CalculateBoxNoGeometries(lines: seq<seq<Geometry>>, offset: Vec2, endPos: EndPosition)
    requires forall i :: 0 <= i < |lines| ==> |lines[i]| == 0
    ensures PointsBox(AllPoints(lines, offset, endPos)) == Initial
  {
    AllPointsEmpty(lines, offset, endPos);
  }

  /** With a geometry somewhere, each bound of `calcBox` is finite, is the
      coordinate of a point, and bounds all points. */
  lemma CalculateBoxTight(lines: seq<seq<Geometry>>, offset: Vec2, endPos: EndPosition, i: nat)
    requires i < |lines| && |lines[i]| > 0
    ensures var pts := AllPoints(lines, offset, endPos);
            var b := PointsBox(pts);
            b.xMin.Fin? && b.xMax.Fin? && b.yMin.Fin? && b.yMax.Fin?
            && (exists j :: 0 <= j < |pts| && b.xMin.v == pts[j].x)
            && (exists j :: 0 <= j < |pts| && b.xMax.v == pts[j].x)
            && (exists j :: 0 <= j < |pts| && b.yMin.v == pts[j].y)
            && (exists j :: 0 <= j < |pts| && b.yMax.v == pts[j].y)
            && (forall j :: 0 <= j < |pts| ==> b.xMin.v <= pts[j].x <= b.xMax.v && b.yMin.v <= pts[j].y <= b.yMax.v)
  {
    var pts := AllPoints(lines, offset, endPos);
    AllPointsNonEmpty(lines, offset, endPos, i);
    PointsBoxAttained(pts);
    forall j | 0 <= j < |pts|
      ensures Contains(PointsBox(pts), pts[j])
    {
      PointsBoxContains(pts, j);
    }
  }
}

/**
 * The plan view of an OpenDRIVE road as the box and routing tools read it:
 * a line of `<geometry>` records (start point, heading, length) and the
 * points a line contributes: the start of every geometry moved by the
 * header offset, and after the last geometry its end point.
 */
module PlanView {

  /** A `<geometry>`: start point, heading and length. */
  datatype Geometry = Geometry(x: real, y: real, hdg: real, length: real)

  datatype Vec2 = Vec2(x: real, y: real)

  /** The end point of a geometry from its start, heading and length. */
  type EndPosition = (real, real, real, real) -> (real, real)

  /** `calculate_end_position`: the start moved by `length` along the
      heading; cosine and sine are given. */
  function CalculateEndPosition(cos: real -> real, sin: real -> real): EndPosition
  {
    (x, y, hdg, length) => (x + length * cos(hdg), y + length * sin(hdg))
  }

  /** A zero length ends where it starts, and for a proper cosine and sine
      the end lies `length` away from the start. */
  lemma EndPositionDistance(cos: real -> real, sin: real -> real, x: real, y: real, hdg: real, length: real)
    ensures length == 0.0 ==> CalculateEndPosition(cos, sin)(x, y, hdg, length) == (x, y)
    ensures cos(hdg) * cos(hdg) + sin(hdg) * sin(hdg) == 1.0 ==>
              var e := CalculateEndPosition(cos, sin)(x, y, hdg, length);
              (e.0 - x) * (e.0 - x) + (e.1 - y) * (e.1 - y) == length * length
  {
    var c, s := cos(hdg), sin(hdg);
    var e := CalculateEndPosition(cos, sin)(x, y, hdg, length);
    assert e.0 - x == length * c && e.1 - y == length * s;
    assert (length * c) * (length * c) + (length * s) * (length * s) == length * length * (c * c + s * s);
  }

  /** `pos_abs`: the start of `g` moved by the offset. */
  function Start(g: Geometry, offset: Vec2): Vec2
  {
    Vec2(g.x + offset.x, g.y + offset.y)
  }

  /** The end point of `g`, computed from its moved start. */
  function End(g: Geometry, offset: Vec2, endPos: EndPosition): Vec2
  {
    var e := endPos(g.x + offset.x, g.y + offset.y, g.hdg, g.length);
    Vec2(e.0, e.1)
  }

  /** The points the first `k` passes of the loop over a line produce: each
      pass gives the start of its geometry, and the pass at which the
      down-counter `len(line) - 1 - k` is 0 adds that geometry's end. */
  function Emitted(line: seq<Geometry>, offset: Vec2, endPos: EndPosition, k: nat): seq<Vec2>
    requires k <= |line|
  {
    if k == 0 then []
    else
      var i := k - 1;
      Emitted(line, offset, endPos, i) + [Start(line[i], offset)]
      + (if |line| - 1 - i == 0 then [End(line[i], offset, endPos)] else [])
  }

  /** All points one line contributes. */
  function LinePoints(line: seq<Geometry>, offset: Vec2, endPos: EndPosition): seq<Vec2>
  {
    Emitted(line, offset, endPos, |line|)
  }

  lemma {:induction false} EmittedShape(line: seq<Geometry>, offset: Vec2, endPos: EndPosition, k: nat)
    requires k <= |line|
    ensures |Emitted(line, offset, endPos, k)| == if 0 < k == |line| then k + 1 else k
    ensures forall i :: 0 <= i < k ==> Emitted(line, offset, endPos, k)[i] == Start(line[i], offset)
  {
    if k > 0 {
      EmittedShape(line, offset, endPos, k - 1);
    }
  }

  /** A line of n geometries gives n + 1 points when n > 0 and none when it
      is empty: the starts in geometry order, then the end of the last
      geometry, which is the only end point used. */
  lemma LinePointsShape(line: seq<Geometry>, offset: Vec2, endPos: EndPosition)
    ensures var pts := LinePoints(line, offset, endPos);
            |pts| == (if |line| == 0 then 0 else |line| + 1)
            && (forall i :: 0 <= i < |line| ==> pts[i] == Start(line[i], offset))
            && (|line| > 0 ==> pts[|line|] == End(line[|line| - 1], offset, endPos))
  {
    EmittedShape(line, offset, endPos, |line|);
  }

  /** The points of all lines, line after line. */
  function AllPoints(lines: seq<seq<Geometry>>, offset: Vec2, endPos: EndPosition): seq<Vec2>
  {
    if |lines| == 0 then []
    else AllPoints(lines[..|lines| - 1], offset, endPos) + LinePoints(lines[|lines| - 1], offset, endPos)
  }

  /** Every geometry start, moved by the offset, is among the points. */
  lemma {:induction false} AllPointsStarts(lines: seq<seq<Geometry>>, offset: Vec2, endPos: EndPosition, i: nat, k: nat)
    requires i < |lines| && k < |lines[i]|
    ensures Start(lines[i][k], offset) in AllPoints(lines, offset, endPos)
  {
    var n := |lines| - 1;
    if i == n {
      LinePointsShape(lines[n], offset, endPos);
      assert LinePoints(lines[n], offset, endPos)[k] == Start(lines[i][k], offset);
    } else {
      assert lines[..n][i] == lines[i];
      AllPointsStarts(lines[..n], offset, endPos, i, k);
    }
  }

  /** Lines without geometries contribute no points. */
  lemma {:induction false} AllPointsEmpty(lines: seq<seq<Geometry>>, offset: Vec2, endPos: EndPosition)
    requires forall i :: 0 <= i < |lines| ==> |lines[i]| == 0
    ensures AllPoints(lines, offset, endPos) == []
  {
    if |lines| > 0 {
      var n := |lines| - 1;
      assert forall i :: 0 <= i < n ==> lines[..n][i] == lines[i];
      AllPointsEmpty(lines[..n], offset, endPos);
    }
  }

  /** A non-empty line makes the points non-empty. */
  lemma {:induction false} AllPointsNonEmpty(lines: seq<seq<Geometry>>, offset: Vec2, endPos: EndPosition, i: nat)
    requires i < |lines| && |lines[i]| > 0
    ensures |AllPoints(lines, offset, endPos)| > 0
  {
    AllPointsStarts(lines, offset, endPos, i, 0);
  }
}

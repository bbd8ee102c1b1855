/**
 * Python's `min` and `max` over floats: on two values, including the two
 * infinities the tools start their searches from, and on a non-empty list.
 */
module PyMinMax {

  /** A float that is finite or one of the two infinities. */
  datatype Ext = NegInf | Fin(v: real) | PosInf

  predicate Less(a: Ext, b: Ext)
  {
    match (a, b)
    case (NegInf, NegInf) => false
    case (NegInf, _) => true
    case (Fin(x), Fin(y)) => x < y
    case (Fin(_), PosInf) => true
    case _ => false
  }

  predicate LessEq(a: Ext, b: Ext)
  {
    a == b || Less(a, b)
  }

  /** Python's `min(a, b)`: `b` only when it is smaller. */
  function ExtMin(a: Ext, b: Ext): Ext
  {
    if Less(b, a) then b else a
  }

  /** Python's `max(a, b)`: `b` only when it is larger. */
  function ExtMax(a: Ext, b: Ext): Ext
  {
    if Less(a, b) then b else a
  }

  /** Python's `min` of a non-empty list. */
  function MinOf(s: seq<real>): real
    requires |s| > 0
  {
    if |s| == 1 then s[0]
    else var m := MinOf(s[..|s| - 1]); if s[|s| - 1] < m then s[|s| - 1] else m
  }

  /** Python's `max` of a non-empty list. */
  function MaxOf(s: seq<real>): real
    requires |s| > 0
  {
    if |s| == 1 then s[0]
    else var m := MaxOf(s[..|s| - 1]); if s[|s| - 1] > m then s[|s| - 1] else m
  }

  /** `min` is a lower bound that occurs in the list, `max` an upper bound
      that occurs in it. */
  lemma {:induction false} MinMaxOf(s: seq<real>)
    requires |s| > 0
    ensures (forall i :: 0 <= i < |s| ==> MinOf(s) <= s[i] <= MaxOf(s))
    ensures MinOf(s) in s && MaxOf(s) in s
  {
    if |s| > 1 {
      var n := |s| - 1;
      MinMaxOf(s[..n]);
      assert forall i :: 0 <= i < n ==> s[..n][i] == s[i];
    }
  }

  /** Appending a value: the new minimum is the value when it is below the
      old one, and likewise for the maximum. */
  lemma MinMaxSnoc(s: seq<real>, v: real)
    requires |s| > 0
    ensures MinOf(s + [v]) == if v < MinOf(s) then v else MinOf(s)
    ensures MaxOf(s + [v]) == if v > MaxOf(s) then v else MaxOf(s)
  {
    assert (s + [v])[..|s|] == s;
  }
}

/**
 * Two loops the tools write again and again, as generic scans over a
 * sequence: the search for the first entry a test accepts, and the
 * collection of one value per entry a test keeps. Tests and values may
 * raise, and the first error ends the scan.
 */
module Scans {
  import opened Wrappers

  /** The first entry the test accepts, scanning in order, or the first
      error the test raises before one is accepted. */
  function FirstMatch<X>(xs: seq<X>, test: X -> Result<bool>): Result<Option<X>>
  {
    if |xs| == 0 then Ok(None)
    else
      var hit :- test(xs[0]);
      if hit then Ok(Some(xs[0])) else FirstMatch(xs[1..], test)
  }

  /** The test rejects each of the first `n` entries without raising. */
  predicate Misses<X>(xs: seq<X>, test: X -> Result<bool>, n: int)
  {
    n <= |xs| && forall j :: 0 <= j < n ==> test(xs[j]) == Ok(false)
  }

  lemma MissesTail<X>(xs: seq<X>, test: X -> Result<bool>, n: int)
    requires 0 < n && Misses(xs, test, n)
    ensures Misses(xs[1..], test, n - 1)
  {
    forall j | 0 <= j < n - 1
      ensures xs[1..][j] == xs[j + 1]
    {
    }
  }

  /** After rejected entries, the next entry decides: accepted, it is
      returned; raising, its error is. */
  lemma {:induction false} FirstMatchAt<X>(xs: seq<X>, test: X -> Result<bool>, i: nat)
    requires i < |xs| && Misses(xs, test, i)
    ensures test(xs[i]) == Ok(true) ==> FirstMatch(xs, test) == Ok(Some(xs[i]))
    ensures test(xs[i]).Err? ==> FirstMatch(xs, test) == Err(test(xs[i]).error)
  {
    if i > 0 {
      MissesTail(xs, test, i);
      FirstMatchAt(xs[1..], test, i - 1);
    }
  }

  /** Nothing is found exactly when the test rejects every entry. */
  lemma {:induction false} FirstMatchNone<X>(xs: seq<X>, test: X -> Result<bool>)
    ensures FirstMatch(xs, test) == Ok(None) <==> Misses(xs, test, |xs|)
  {
    if |xs| > 0 {
      var rest := xs[1..];
      FirstMatchNone(rest, test);
      if Misses(xs, test, |xs|) {
        MissesTail(xs, test, |xs|);
      }
      if FirstMatch(xs, test) == Ok(None) {
        forall j | 0 <= j < |xs|
          ensures test(xs[j]) == Ok(false)
        {
          if j > 0 {
            assert xs[j] == rest[j - 1];
          }
        }
      }
    }
  }

  /** The entries the test keeps, in order. */
  function Kept<X>(xs: seq<X>, keep: X -> Result<bool>): seq<X>
  {
    if |xs| == 0 then []
    else Kept(xs[..|xs| - 1], keep) + (if keep(xs[|xs| - 1]) == Ok(true) then [xs[|xs| - 1]] else [])
  }

  /** The values of `f` for the entries the test keeps, in order, or the
      first error the test or `f` raises. */
  function Collect<X, Y>(xs: seq<X>, keep: X -> Result<bool>, f: X -> Result<Y>): Result<seq<Y>>
  {
    if |xs| == 0 then Ok([])
    else
      var prev :- Collect(xs[..|xs| - 1], keep, f);
      var x := xs[|xs| - 1];
      var k :- keep(x);
      if !k then Ok(prev)
      else
        var y :- f(x);
        Ok(prev + [y])
  }

  /** One more entry of the scan. */
  lemma CollectNext<X, Y>(xs: seq<X>, keep: X -> Result<bool>, f: X -> Result<Y>, i: nat)
    requires i < |xs|
    ensures Collect(xs[..i + 1], keep, f)
            == match Collect(xs[..i], keep, f)
               case Err(e) => Err(e)
               case Ok(prev) =>
                 match keep(xs[i])
                 case Err(e) => Err(e)
                 case Ok(k) =>
                   if !k then Ok(prev)
                   else match f(xs[i])
                        case Err(e) => Err(e)
                        case Ok(y) => Ok(prev + [y])
  {
    assert xs[..i + 1][..i] == xs[..i];
  }

  /** Once a prefix fails, the whole fails with the same error. */
  lemma {:induction false} CollectErrPrefix<X, Y>(xs: seq<X>, keep: X -> Result<bool>, f: X -> Result<Y>, i: nat)
    requires i <= |xs| && Collect(xs[..i], keep, f).Err?
    ensures Collect(xs, keep, f) == Collect(xs[..i], keep, f)
    decreases |xs| - i
  {
    if i == |xs| {
      assert xs[..i] == xs;
    } else {
      CollectNext(xs, keep, f, i);
      CollectErrPrefix(xs, keep, f, i + 1);
    }
  }

  /** Collecting succeeds exactly when the test never raises and `f`
      succeeds on every entry kept; it then holds one value per kept entry,
      in order. */
  lemma {:induction false} CollectPointwise<X, Y>(xs: seq<X>, keep: X -> Result<bool>, f: X -> Result<Y>)
    ensures Collect(xs, keep, f).Ok?
            <==> forall i :: 0 <= i < |xs| ==> keep(xs[i]).Ok? && (keep(xs[i]).value ==> f(xs[i]).Ok?)
    ensures Collect(xs, keep, f).Ok? ==>
              var ys := Collect(xs, keep, f).value;
              var ks := Kept(xs, keep);
              |ys| == |ks| && forall j :: 0 <= j < |ys| ==> f(ks[j]) == Ok(ys[j])
  {
    if |xs| > 0 {
      var n := |xs| - 1;
      var pre := xs[..n];
      CollectPointwise(pre, keep, f);
      assert forall i :: 0 <= i < n ==> pre[i] == xs[i];
    }
  }
}

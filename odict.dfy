/**
 * Python's insertion-ordered `dict` with string keys, as a sequence of
 * (key, value) pairs. `Put` is `d[k] = v`: an existing key keeps its place,
 * a new key goes to the end.
 */
module ODict {
  import opened Wrappers

  type Dict<V> = seq<(string, V)>

  function Keys<V>(d: Dict<V>): (r: seq<string>)
    ensures |r| == |d|
    ensures forall i :: 0 <= i < |d| ==> r[i] == d[i].0
  {
    if |d| == 0 then [] else [d[0].0] + Keys(d[1..])
  }

  /** `d.get(k)`: the value stored under `k`, if any. */
  function Get<V>(d: Dict<V>, k: string): (r: Option<V>)
    ensures r.Some? <==> k in Keys(d)
    ensures r.Some? ==> (k, r.value) in d
  {
    if |d| == 0 then None
    else if d[0].0 == k then Some(d[0].1)
    else Get(d[1..], k)
  }

  /** `d[k] = v`. */
  function Put<V>(d: Dict<V>, k: string, v: V): (r: Dict<V>)
    ensures Get(r, k) == Some(v)
    ensures forall k' :: k' != k ==> Get(r, k') == Get(d, k')
  {
    if |d| == 0 then [(k, v)]
    else if d[0].0 == k then
      var r := [(k, v)] + d[1..];
      assert r[1..] == d[1..];
      r
    else
      var t := Put(d[1..], k, v);
      var r := [d[0]] + t;
      assert r[1..] == t;
      assert Get(r, k) == Get(t, k);
      assert forall k' :: k' != d[0].0 ==> Get(r, k') == Get(t, k');
      r
  }

  /** `d[k] = v` keeps the key order and adds `k` at the end when it is new. */
  lemma {:induction false} PutKeys<V>(d: Dict<V>, k: string, v: V)
    ensures Keys(Put(d, k, v)) == if k in Keys(d) then Keys(d) else Keys(d) + [k]
  {
    if |d| > 0 {
      var r := Put(d, k, v);
      assert Keys(d) == [d[0].0] + Keys(d[1..]);
      if d[0].0 == k {
        assert r[1..] == d[1..];
        assert Keys(r) == [k] + Keys(r[1..]);
      } else {
        PutKeys(d[1..], k, v);
        assert r[1..] == Put(d[1..], k, v);
        assert Keys(r) == [d[0].0] + Keys(r[1..]);
      }
    }
  }

  /** `d[k] = v` never moves or removes a key already there. */
  lemma PutKeepsPrefix<V>(d: Dict<V>, k: string, v: V)
    ensures |Put(d, k, v)| >= |d| && Keys(Put(d, k, v))[..|d|] == Keys(d)
  {
    PutKeys(d, k, v);
  }

  /** Every key occurs once, as in a Python dict. */
  predicate UniqueKeys<V>(d: Dict<V>)
  {
    forall i, j :: 0 <= i < j < |d| ==> d[i].0 != d[j].0
  }

  /** With unique keys, `d[k]` is the value stored next to `k`. */
  lemma UniqueGet<V>(d: Dict<V>, i: nat)
    requires UniqueKeys(d) && i < |d|
    ensures Get(d, d[i].0) == Some(d[i].1)
  {
    if i > 0 {
      assert UniqueKeys(d[1..]) by {
        forall a, b | 0 <= a < b < |d| - 1
          ensures d[1..][a].0 != d[1..][b].0
        {
          assert d[1..][a] == d[a + 1] && d[1..][b] == d[b + 1];
        }
      }
      UniqueGet(d[1..], i - 1);
    }
  }

  /** Storing under a new key appends exactly one entry at the end. */
  lemma {:induction false} PutNewAppends<V>(d: Dict<V>, k: string, v: V)
    requires k !in Keys(d)
    ensures Put(d, k, v) == d + [(k, v)]
  {
    if |d| > 0 {
      assert k !in Keys(d[1..]);
      PutNewAppends(d[1..], k, v);
    }
  }

  /** An entry added at the end is found for its key unless the key was
      already there, and changes no other key. */
  lemma {:induction false} GetAppend<V>(d: Dict<V>, k: string, v: V)
    ensures Get(d + [(k, v)], k) == if k in Keys(d) then Get(d, k) else Some(v)
    ensures forall k' :: k' != k ==> Get(d + [(k, v)], k') == Get(d, k')
  {
    if |d| > 0 {
      GetAppend(d[1..], k, v);
      assert (d + [(k, v)])[1..] == d[1..] + [(k, v)];
    }
  }

  /** Storing under a present key overwrites in place: same length, same key order. */
  lemma {:induction false} PutExistingInPlace<V>(d: Dict<V>, k: string, v: V)
    requires k in Keys(d)
    ensures |Put(d, k, v)| == |d|
  {
    if d[0].0 != k {
      assert k in Keys(d[1..]);
      PutExistingInPlace(d[1..], k, v);
    }
  }

  /** `d[k] = v` keeps every key unique. */
  lemma PutUnique<V>(d: Dict<V>, k: string, v: V)
    requires UniqueKeys(d)
    ensures UniqueKeys(Put(d, k, v))
  {
    PutKeys(d, k, v);
    var r := Put(d, k, v);
    var ks := Keys(r);
    forall i, j | 0 <= i < j < |r|
      ensures r[i].0 != r[j].0
    {
      assert r[i].0 == ks[i] && r[j].0 == ks[j];
      if j < |d| {
        assert ks[i] == Keys(d)[i] == d[i].0 && ks[j] == Keys(d)[j] == d[j].0;
      } else {
        assert ks[j] == k && k !in Keys(d) && ks[i] == Keys(d)[i];
      }
    }
  }

  /** `d.update(src)`: each pair of `src` stored in turn. */
  function Update<V>(d: Dict<V>, src: Dict<V>): Dict<V>
    decreases |src|
  {
    if |src| == 0 then d else Update(Put(d, src[0].0, src[0].1), src[1..])
  }

  /** After `d.update(src)` a key of `src` holds its value there, and any
      other key keeps its value in `d`. */
  lemma {:induction false} UpdateGet<V>(d: Dict<V>, src: Dict<V>, k: string)
    requires UniqueKeys(src)
    ensures Get(Update(d, src), k) == if k in Keys(src) then Get(src, k) else Get(d, k)
    decreases |src|
  {
    if |src| > 0 {
      var rest := src[1..];
      assert UniqueKeys(rest) by {
        forall i, j | 0 <= i < j < |rest|
          ensures rest[i].0 != rest[j].0
        {
          assert rest[i] == src[i + 1] && rest[j] == src[j + 1];
        }
      }
      UpdateGet(Put(d, src[0].0, src[0].1), rest, k);
      assert Keys(src) == [src[0].0] + Keys(rest);
      if src[0].0 == k {
        assert k !in Keys(rest) by {
          forall j | 0 <= j < |rest|
            ensures Keys(rest)[j] != k
          {
            assert rest[j] == src[j + 1];
          }
        }
      } else {
        assert Get(src, k) == Get(rest, k);
      }
    }
  }
}

/**
 * The values `json.load` produces (plus a parsed date), and the Python
 * operations the tools apply to them without checking their type first:
 * `key in v`, `v[key]`, `for x in v` and truthiness.
 */
module JsonValue {
  import opened Wrappers
  import opened ODict
  import opened PyStr

  datatype Json =
    | JNull
    | JBool(b: bool)
    | JInt(i: int)
    | JNum(r: real)
    | JStr(s: string)
    | JDate(text: string)          // a datetime.datetime read from `text`
    | JArr(items: seq<Json>)
    | JObj(fields: Dict<Json>)

  /** Python's `key in v` for a string key: a dict tests its keys, a list its
      elements, a string its substrings; anything else raises TypeError. */
  function In(key: string, v: Json): (r: Result<bool>)
    ensures r.Ok? <==> (v.JObj? || v.JArr? || v.JStr?)
  {
    match v
    case JObj(f) => Ok(key in Keys(f))
    case JArr(xs) => Ok(JStr(key) in xs)
    case JStr(s) => Ok(Contains(s, key))
    case _ => Err(TypeError("argument is not iterable"))
  }

  /** Python's `v[key]` for a string key. */
  function Index(v: Json, key: string): (r: Result<Json>)
    ensures r.Ok? ==> v.JObj? && (key, r.value) in v.fields
    ensures v.JObj? && key in Keys(v.fields) ==> r.Ok?
  {
    match v
    case JObj(f) =>
      (match Get(f, key)
       case Some(x) => Ok(x)
       case None => Err(KeyError(key)))
    case _ => Err(TypeError("indices must be integers"))
  }

  /** A value reached through `v[key]` lies strictly inside `v`. */
  lemma IndexSmaller(v: Json, key: string)
    requires Index(v, key).Ok?
    ensures Index(v, key).value < v
  {
    var x := Index(v, key).value;
    assert (key, x) in v.fields;
  }

  /** Python's `for x in v`: list elements, string characters, dict keys. */
  function Iter(v: Json): (r: Result<seq<Json>>)
    ensures v.JArr? ==> r == Ok(v.items)
    ensures r.Ok? <==> (v.JObj? || v.JArr? || v.JStr?)
  {
    match v
    case JArr(xs) => Ok(xs)
    case JStr(s) => Ok(seq(|s|, i requires 0 <= i < |s| => JStr([s[i]])))
    case JObj(f) => Ok(seq(|f|, i requires 0 <= i < |f| => JStr(f[i].0)))
    case _ => Err(TypeError("object is not iterable"))
  }

  /** Python truthiness. */
  predicate Truthy(v: Json)
  {
    match v
    case JNull => false
    case JBool(b) => b
    case JInt(i) => i != 0
    case JNum(r) => r != 0.0
    case JStr(s) => |s| > 0
    case JDate(_) => true
    case JArr(xs) => |xs| > 0
    case JObj(f) => |f| > 0
  }

  /** A dict of strings as a JSON object. */
  function StrObj(d: Dict<string>): (r: Dict<Json>)
    ensures Keys(r) == Keys(d)
    ensures forall i :: 0 <= i < |d| ==> r[i].1 == JStr(d[i].1)
  {
    if |d| == 0 then [] else [(d[0].0, JStr(d[0].1))] + StrObj(d[1..])
  }

  /** The value of a key in a dict of strings, as JSON. */
  lemma {:induction false} StrObjGet(d: Dict<string>, k: string)
    ensures Get(StrObj(d), k) == if Get(d, k).Some? then Some(JStr(Get(d, k).value)) else None
  {
    if |d| > 0 {
      StrObjGet(d[1..], k);
      assert StrObj(d)[1..] == StrObj(d[1..]);
    }
  }

  /** Turning the values into JSON strings keeps the keys unique. */
  lemma StrObjUnique(d: Dict<string>)
    requires UniqueKeys(d)
    ensures UniqueKeys(StrObj(d))
  {
    var r := StrObj(d);
    forall i, j | 0 <= i < j < |r|
      ensures r[i].0 != r[j].0
    {
      assert r[i].0 == Keys(r)[i] == Keys(d)[i] == d[i].0;
      assert r[j].0 == Keys(r)[j] == Keys(d)[j] == d[j].0;
    }
  }
}

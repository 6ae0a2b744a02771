/**
 * The values `json.loads` hands back, and the few dictionary operations the
 * layer performs on them (`d.get(k)`, `d[k] = v`, truthiness).
 */
module JsonModel {
  import opened Common

  /**
   * A parsed JSON value. Python keeps integers and floats apart; floats are
   * modelled as exact rationals. Objects are Python dicts: an ordered list of
   * (key, value) pairs in insertion order, with distinct keys.
   */
  datatype Json =
    | JNull
    | JBool(b: bool)
    | JInt(i: int)
    | JFloat(f: real)
    | JString(s: string)
    | JArray(items: seq<Json>)
    | JObject(fields: Dict)

  type Dict = seq<(string, Json)>

  /** `k in d`. */
  predicate HasKey(d: Dict, k: string) {
    d != [] && (d[0].0 == k || HasKey(d[1..], k))
  }

  /** `d.get(k)`: the value bound to `k`, or None when the key is absent. */
  function Get(d: Dict, k: string): (r: Option<Json>)
    ensures r.Some? <==> HasKey(d, k)
    ensures r.Some? ==> (k, r.value) in d
  {
    if d == [] then None
    else if d[0].0 == k then Some(d[0].1)
    else Get(d[1..], k)
  }

  /**
   * `d[k] = v`: an existing key keeps its position and takes the new value,
   * a new key is appended at the end.
   */
  function Set(d: Dict, k: string, v: Json): (r: Dict)
    ensures Get(r, k) == Some(v)
    ensures forall k' :: k' != k ==> Get(r, k') == Get(d, k')
    ensures HasKey(d, k) ==> |r| == |d|
    ensures !HasKey(d, k) ==> r == d + [(k, v)]
  {
    if d == [] then [(k, v)]
    else if d[0].0 == k then [(k, v)] + d[1..]
    else
      var r := [d[0]] + Set(d[1..], k, v);
      assert r[1..] == Set(d[1..], k, v);
      r
  }

  /** A lookup in a dict whose first entry is known. */
  lemma GetCons(k: string, v: Json, rest: Dict, key: string)
    ensures Get([(k, v)] + rest, key) == if k == key then Some(v) else Get(rest, key)
  {
    assert ([(k, v)] + rest)[1..] == rest;
  }

  /** Python truthiness: `bool(v)`. */
  predicate Truthy(v: Json) {
    match v
    case JNull => false
    case JBool(b) => b
    case JInt(i) => i != 0
    case JFloat(f) => f != 0.0
    case JString(s) => s != []
    case JArray(items) => items != []
    case JObject(fields) => fields != []
  }
}

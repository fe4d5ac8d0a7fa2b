/** Dynamically typed Python values as they reach the database layer, and
    Python dicts with string keys, kept in insertion order as (key, value)
    pairs. */
module Values {
  import opened Wrappers

  /** A dict with string keys, in insertion order. */
  type Fields<V> = seq<(string, V)>

  /** A Python value, enough to give the layer's isinstance checks a meaning. */
  datatype Value =
    | Null
    | Bool(b: bool)
    | Int(i: int)
    | Str(s: string)
    | List(items: seq<Value>)
    | Dict(entries: Fields<Value>)

  /** Whether a value can be a dict key: Python lists and dicts cannot. */
  predicate Hashable(v: Value) {
    !v.List? && !v.Dict?
  }

  /** A stored document: a dict from field name to value. */
  type Record = Fields<Value>

  /** The keys of a dict, in order (Python's `list(d.keys())`). */
  function Keys<V>(d: Fields<V>): (ks: seq<string>)
    ensures |ks| == |d|
    ensures forall i :: 0 <= i < |d| ==> ks[i] == d[i].0
  {
    if d == [] then [] else [d[0].0] + Keys(d[1..])
  }

  /** Python's `k in d`. */
  predicate Has<V>(d: Fields<V>, k: string) {
    k in Keys(d)
  }

  /** Python's `d.get(k)`, with None for a missing key. */
  function Get<V>(d: Fields<V>, k: string): (r: Option<V>)
    ensures r.Some? <==> Has(d, k)
    ensures r.Some? ==> exists i :: 0 <= i < |d| && d[i] == (k, r.value)
  {
    if d == [] then None
    else if d[0].0 == k then Some(d[0].1)
    else
      var r := Get(d[1..], k);
      assert r.Some? ==> exists i :: 0 <= i < |d[1..]| && d[1..][i] == (k, r.value);
      r
  }

  /** Python's `d[k] = v`: an existing key keeps its place and takes the new
      value, a new key goes at the end. */
  function Put<V>(d: Fields<V>, k: string, v: V): (r: Fields<V>)
    ensures Keys(r) == if Has(d, k) then Keys(d) else Keys(d) + [k]
    ensures forall j :: Get(r, j) == if j == k then Some(v) else Get(d, j)
  {
    if d == [] then [(k, v)]
    else if d[0].0 == k then [(k, v)] + d[1..]
    else
      var r := [d[0]] + Put(d[1..], k, v);
      assert r[1..] == Put(d[1..], k, v);
      r
  }

  /** No key occurs twice: what every Python dict satisfies. */
  predicate DistinctKeys<V>(d: Fields<V>) {
    forall i, j :: 0 <= i < j < |d| ==> d[i].0 != d[j].0
  }

  /** Assignment keeps every key once. */
  lemma PutKeepsKeysDistinct<V>(d: Fields<V>, k: string, v: V)
    requires DistinctKeys(d)
    ensures DistinctKeys(Put(d, k, v))
  {
  }
}

/**
 * Python dictionaries keyed by strings, in insertion order: a sequence of
 * (key, value) entries. Assigning `d[k] = v` to an existing key replaces its
 * value and keeps its position; a new key goes to the end.
 */
module Dicts {
  import opened Wrappers

  type Dict<V> = seq<(string, V)>

  /** The keys in iteration order. */
  function Keys<V>(d: Dict<V>): (ks: seq<string>)
    ensures |ks| == |d|
    ensures forall i :: 0 <= i < |d| ==> ks[i] == d[i].0
  {
    seq(|d|, i requires 0 <= i < |d| => d[i].0)
  }

  predicate DistinctKeys<V>(d: Dict<V>) {
    forall i, j :: 0 <= i < j < |d| ==> d[i].0 != d[j].0
  }

  predicate Distinct(xs: seq<string>) {
    forall i, j :: 0 <= i < j < |xs| ==> xs[i] != xs[j]
  }

  lemma KeysAppend<V>(d: Dict<V>, e: (string, V))
    ensures Keys(d + [e]) == Keys(d) + [e.0]
  {
    assert Keys(d + [e])[|d|] == e.0;
  }

  /** Python's `d.get(k)`: the value stored under `k`, if any. */
  function Get<V>(d: Dict<V>, k: string): (r: Option<V>)
    ensures r.Some? <==> k in Keys(d)
    ensures r.Some? ==> exists i :: 0 <= i < |d| && d[i] == (k, r.value)
  {
    if d == [] then None
    else if d[|d| - 1].0 == k then Some(d[|d| - 1].1)
    else
      var r := Get(d[..|d| - 1], k);
      assert Keys(d) == Keys(d[..|d| - 1]) + [d[|d| - 1].0];
      r
  }

  /** In a dictionary, the entry for a key is the only one with that key. */
  lemma GetAt<V>(d: Dict<V>, i: nat)
    requires DistinctKeys(d) && i < |d|
    ensures Get(d, d[i].0) == Some(d[i].1)
  {
    if i < |d| - 1 {
      GetAt(d[..|d| - 1], i);
    }
  }

  lemma GetAppend<V>(d: Dict<V>, e: (string, V))
    ensures forall k :: Get(d + [e], k) == if e.0 == k then Some(e.1) else Get(d, k)
  {
    assert (d + [e])[..|d|] == d;
  }

  /** Python's `d[k] = v`. */
  function Put<V>(d: Dict<V>, k: string, v: V): (r: Dict<V>)
    ensures Keys(r) == if k in Keys(d) then Keys(d) else Keys(d) + [k]
    ensures Get(r, k) == Some(v)
    ensures forall k' :: k' != k ==> Get(r, k') == Get(d, k')
    ensures DistinctKeys(d) ==> DistinctKeys(r)
    decreases |d|
  {
    if k !in Keys(d) then
      KeysAppend(d, (k, v));
      GetAppend(d, (k, v));
      d + [(k, v)]
    else
      var init, last := d[..|d| - 1], d[|d| - 1];
      assert d == init + [last];
      KeysAppend(init, last);
      if last.0 == k then
        KeysAppend(init, (k, v));
        GetAppend(init, (k, v));
        GetAppend(init, last);
        init + [(k, v)]
      else
        var p := Put(init, k, v);
        KeysAppend(p, last);
        GetAppend(p, last);
        GetAppend(init, last);
        p + [last]
  }
}

// Python dictionaries where the migration depends on their iteration order:
// each key once, in insertion order, with its value. Assigning to an existing
// key keeps its position; assigning to a new key appends it.

module Dicts {
  import opened Py

  datatype Dict<K, V> = Dict(keys: seq<K>, entries: map<K, V>)

  ghost predicate WellFormed<K(!new), V>(d: Dict<K, V>)
  {
    && (forall i, j :: 0 <= i < j < |d.keys| ==> d.keys[i] != d.keys[j])
    && (forall k :: k in d.entries <==> k in d.keys)
  }

  type ODict<K(!new), V> = d: Dict<K, V> | WellFormed(d) witness Dict([], map[])

  function Empty<K(!new), V>(): (r: ODict<K, V>)
    ensures r.keys == [] && r.entries == map[]
  {
    Dict([], map[])
  }

  /** `d.get(k)`. */
  function Get<K(!new), V>(d: ODict<K, V>, k: K): (r: Option<V>)
    ensures r.Some? <==> k in d.entries
    ensures r.Some? ==> r.value == d.entries[k]
  {
    if k in d.entries then Some(d.entries[k]) else None
  }

  /** `d[k] = v`. */
  function Put<K(!new), V>(d: ODict<K, V>, k: K, v: V): (r: ODict<K, V>)
    ensures r.entries == d.entries[k := v]
    ensures k in d.entries ==> r.keys == d.keys
    ensures k !in d.entries ==> r.keys == d.keys + [k]
  {
    if k in d.entries then Dict(d.keys, d.entries[k := v])
    else
      var r := Dict(d.keys + [k], d.entries[k := v]);
      assert forall i :: 0 <= i < |d.keys| ==> d.keys[i] != k;
      r
  }

  /** `d.setdefault(k, v)`: the dict with `k` present, keeping an existing value. */
  function SetDefault<K(!new), V>(d: ODict<K, V>, k: K, v: V): (r: ODict<K, V>)
    ensures k in r.entries
    ensures k in d.entries ==> r == d
    ensures k !in d.entries ==> r.entries == d.entries[k := v] && r.keys == d.keys + [k]
  {
    if k in d.entries then d else Put(d, k, v)
  }

  /** The first key, in iteration order, that satisfies `p`. */
  function FirstKey<K(!new), V>(d: ODict<K, V>, p: K -> bool): (r: Option<K>)
    ensures r.Some? ==> r.value in d.entries && p(r.value)
    ensures r.None? ==> forall k :: k in d.entries ==> !p(k)
  {
    FirstOf(d.keys, p)
  }

  function FirstOf<K(!new)>(ks: seq<K>, p: K -> bool): (r: Option<K>)
    ensures r.Some? ==> r.value in ks && p(r.value)
    ensures r.Some? ==> exists i :: 0 <= i < |ks| && ks[i] == r.value && forall j :: 0 <= j < i ==> !p(ks[j])
    ensures r.None? ==> forall k :: k in ks ==> !p(k)
  {
    if ks == [] then None
    else if p(ks[0]) then Some(ks[0])
    else
      var r := FirstOf(ks[1..], p);
      assert r.Some? ==> exists i :: 0 <= i < |ks[1..]| && ks[1..][i] == r.value && forall j :: 0 <= j < i ==> !p(ks[1..][j]);
      r
  }
}

/**
 * A JavaScript `Map` with string keys, as the in-memory store uses it:
 * lookups by key, `set` that adds or replaces, and `values()` that
 * iterates in the order in which keys were first inserted.
 */
module JsMap {
  import opened Wrappers

  /** `keys` lists every key once, in first-insertion order; `entries` holds the values. */
  datatype OrderedMap<V> = OrderedMap(keys: seq<string>, entries: map<string, V>)
  {
    ghost predicate Valid() {
      (forall i, j :: 0 <= i < j < |keys| ==> keys[i] != keys[j]) &&
      (forall k :: k in entries <==> k in keys)
    }

    /** `Map.prototype.get`: the value under `k`, or undefined. */
    function Get(k: string): (r: Option<V>)
      ensures r.Some? <==> k in entries
      ensures r.Some? ==> r.value == entries[k]
    {
      if k in entries then Some(entries[k]) else None
    }

    /** `Map.prototype.set`: a new key goes last; an existing key keeps its place. */
    function Set(k: string, v: V): (r: OrderedMap<V>)
      requires Valid()
      ensures r.Valid()
      ensures r.Get(k) == Some(v)
      ensures forall k' :: k' != k ==> r.Get(k') == Get(k')
      ensures k !in entries ==> r.keys == keys + [k]
      ensures k in entries ==> r.keys == keys
    {
      var r := OrderedMap(if k in entries then keys else keys + [k], entries[k := v]);
      assert forall k' :: k' in r.entries <==> k' in r.keys;
      r
    }

    /** `Array.from(map.values())`: the values in key order. */
    function Values(): (r: seq<V>)
      requires Valid()
      ensures |r| == |keys|
      ensures forall i :: 0 <= i < |keys| ==> r[i] == entries[keys[i]]
    {
      seq(|keys|, i requires 0 <= i < |keys| => entries[keys[i]])
    }
  }

  /** `new Map()`. */
  function Empty<V>(): (m: OrderedMap<V>)
    ensures m.Valid()
    ensures m.Values() == []
    ensures forall k :: m.Get(k) == None
  {
    OrderedMap([], map[])
  }

  /** Setting a key that is not yet present appends its value to the iteration order. */
  lemma SetFreshAppends<V>(m: OrderedMap<V>, k: string, v: V)
    requires m.Valid() && k !in m.entries
    ensures m.Set(k, v).Values() == m.Values() + [v]
  {
    var r := m.Set(k, v);
    assert r.keys == m.keys + [k];
    assert forall i :: 0 <= i < |m.keys| ==> m.keys[i] != k;
    forall i | 0 <= i < |r.keys|
      ensures r.Values()[i] == (m.Values() + [v])[i]
    {
      if i < |m.keys| {
        assert r.keys[i] == m.keys[i];
      }
    }
  }

  /** Every iterated value is stored under some key, and every stored value is iterated. */
  lemma InValues<V>(m: OrderedMap<V>, v: V)
    requires m.Valid()
    ensures v in m.Values() <==> exists k :: k in m.entries && m.entries[k] == v
  {
    var vs := m.Values();
    if v in vs {
      var i :| 0 <= i < |vs| && vs[i] == v;
      assert m.keys[i] in m.entries;
    }
    if k :| k in m.entries && m.entries[k] == v {
      var i :| 0 <= i < |m.keys| && m.keys[i] == k;
      assert vs[i] == v;
    }
  }
}

/**
 * Listing a dictionary: Python's `list(d.keys())` and `list(d.values())`
 * give every entry once, in an order the model leaves open.
 */
module Collections {

  predicate NoDuplicates<T(==)>(s: seq<T>) {
    forall i, j :: 0 <= i < j < |s| ==> s[i] != s[j]
  }

  /** The keys of a map in some order, each once, with their values alongside. */
  method ListEntries<K(==), V>(m: map<K, V>) returns (keys: seq<K>, values: seq<V>)
    ensures |keys| == |values| == |m|
    ensures NoDuplicates(keys)
    ensures forall i :: 0 <= i < |keys| ==> keys[i] in m && values[i] == m[keys[i]]
    ensures forall k :: k in m ==> k in keys
  {
    keys, values := [], [];
    var rest := m.Keys;
    while rest != {}
      invariant rest <= m.Keys
      invariant |keys| == |values| && |keys| + |rest| == |m|
      invariant NoDuplicates(keys)
      invariant forall i :: 0 <= i < |keys| ==> keys[i] in m && keys[i] !in rest && values[i] == m[keys[i]]
      invariant forall k :: k in m && k !in rest ==> k in keys
      decreases |rest|
    {
      var k :| k in rest;
      keys, values := keys + [k], values + [m[k]];
      rest := rest - {k};
    }
  }
}

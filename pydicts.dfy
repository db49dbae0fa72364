/** Python's `dict`: each key has one value, and iteration follows first-insertion order.
    Assigning to a key that is already present replaces its value in place. */
module PyDicts {

  datatype Dict<K, V> = Dict(keys: seq<K>, values: map<K, V>) {

    ghost predicate Valid() {
      && (forall i, j :: 0 <= i < j < |keys| ==> keys[i] != keys[j])
      && values.Keys == set k | k in keys
    }

    /** `d.items()`, in iteration order. */
    function Items(): (r: seq<(K, V)>)
      requires Valid()
      ensures |r| == |keys|
      ensures forall i :: 0 <= i < |r| ==> r[i] == (keys[i], values[keys[i]])
    {
      seq(|keys|, i requires 0 <= i < |keys| => (keys[i], values[keys[i]]))
    }

    /** `d[k] = v`: a present key keeps its place, a new key goes last. */
    function Put(k: K, v: V): (d: Dict<K, V>)
      requires Valid()
      ensures d.Valid()
      ensures d.values == values[k := v]
      ensures k in values ==> d.keys == keys
      ensures k !in values ==> d.keys == keys + [k]
    {
      if k in values then Dict(keys, values[k := v])
      else Dict(keys + [k], values[k := v])
    }
  }

  /** In iteration order, `d[k] = v` replaces the entry of a present key where it stands and
      appends the entry of a new key. */
  lemma PutItems<K, V>(d: Dict<K, V>, k: K, v: V)
    requires d.Valid()
    ensures k in d.values ==> exists i :: 0 <= i < |d.keys| && d.keys[i] == k && d.Put(k, v).Items() == d.Items()[i := (k, v)]
    ensures k !in d.values ==> d.Put(k, v).Items() == d.Items() + [(k, v)]
  {
    if k in d.values {
      var i :| 0 <= i < |d.keys| && d.keys[i] == k;
      assert d.Put(k, v).Items() == d.Items()[i := (k, v)];
    } else {
      assert d.Put(k, v).Items() == d.Items() + [(k, v)];
    }
  }

  function Empty<K, V>(): (d: Dict<K, V>)
    ensures d.Valid() && d.Items() == []
  {
    Dict([], map[])
  }

  /** After `d[k] = v`, `d[k]` is `v`, every other key keeps its value, and the key order
      is unchanged when `k` was present. */
  lemma PutThenGet<K, V>(d: Dict<K, V>, k: K, v: V, other: K)
    requires d.Valid() && other != k
    ensures d.Put(k, v).values[k] == v
    ensures other in d.values <==> other in d.Put(k, v).values
    ensures other in d.values ==> d.Put(k, v).values[other] == d.values[other]
    ensures k in d.values ==> d.Put(k, v).keys == d.keys
  {
  }
}

/** Python dictionaries whose iteration order matters: `list(d.values())` lists the
    values in the order their keys were first inserted. */
module OrderedMaps {

  datatype OrderedMap<V> = OrderedMap(keys: seq<string>, entries: map<string, V>) {

    /** Keys are listed once each, and exactly the keys of `entries` are listed. */
    ghost predicate Valid() {
      && (forall i, j :: 0 <= i < j < |keys| ==> keys[i] != keys[j])
      && (forall k :: k in entries <==> k in keys)
    }

    /** `d[k] = v`: a new key goes last, an existing key keeps its place. */
    function Put(k: string, v: V): (m: OrderedMap<V>)
      requires Valid()
      ensures m.Valid()
      ensures m.entries == entries[k := v]
      ensures k in entries ==> m.keys == keys
      ensures k !in entries ==> m.keys == keys + [k]
    {
      OrderedMap(if k in entries then keys else keys + [k], entries[k := v])
    }

    /** `list(d.values())`. */
    function Values(): (vs: seq<V>)
      requires Valid()
      ensures |vs| == |keys|
      ensures forall i :: 0 <= i < |keys| ==> vs[i] == entries[keys[i]]
    {
      seq(|keys|, i requires 0 <= i < |keys| => entries[keys[i]])
    }
  }

  function Empty<V>(): (m: OrderedMap<V>)
    ensures m.Valid() && m.keys == [] && m.entries == map[]
  {
    OrderedMap([], map[])
  }

  /** Storing under a new key appends its value to the listing. */
  lemma PutNewAppends<V>(m: OrderedMap<V>, k: string, v: V)
    requires m.Valid() && k !in m.entries
    ensures m.Put(k, v).Values() == m.Values() + [v]
  {
    var after := m.Put(k, v);
    assert k !in m.keys;
    forall i | 0 <= i < |m.keys| ensures after.Values()[i] == m.Values()[i] {
      assert m.keys[i] != k;
    }
  }

  /** Storing under an existing key replaces its value where it stands. */
  lemma PutExistingReplaces<V>(m: OrderedMap<V>, k: string, v: V) returns (i: nat)
    requires m.Valid() && k in m.entries
    ensures i < |m.keys| && m.keys[i] == k
    ensures m.Put(k, v).Values() == m.Values()[i := v]
  {
    i :| 0 <= i < |m.keys| && m.keys[i] == k;
    var after := m.Put(k, v);
    forall j | 0 <= j < |m.keys| ensures after.Values()[j] == m.Values()[i := v][j] {
      if j != i {
        assert m.keys[j] != k;
      }
    }
  }
}

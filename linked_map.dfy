/** `LinkedHashMap` as the core uses it: a map that remembers the order in
    which keys were first inserted. Putting an existing key replaces its
    value and keeps its position; removing a key drops it from the order. */
module LinkedMaps {

  datatype LinkedMap<K(==,!new), V> = LinkedMap(keys: seq<K>, entries: map<K, V>) {

    /** The keys are distinct and are exactly the keys of `entries`. */
    ghost predicate Valid() {
      && Distinct(keys)
      && (forall k :: k in entries <==> k in keys)
    }

    predicate IsEmpty() {
      keys == []
    }

    function Put(k: K, v: V): (m: LinkedMap<K, V>)
      ensures Valid() ==> m.Valid()
      ensures m.entries == entries[k := v]
      ensures m.keys == if k in entries then keys else keys + [k]
    {
      if k in entries then LinkedMap(keys, entries[k := v])
      else LinkedMap(keys + [k], entries[k := v])
    }

    function Remove(k: K): (m: LinkedMap<K, V>)
      ensures Valid() ==> m.Valid()
      ensures m.entries == entries - {k}
      ensures forall x :: x in m.keys <==> x in keys && x != k
    {
      LinkedMap(Without(keys, k), entries - {k})
    }

    /** `values()`: the values in key order. */
    function Values(): (vs: seq<V>)
      requires Valid()
      ensures |vs| == |keys|
      ensures forall i :: 0 <= i < |keys| ==> vs[i] == entries[keys[i]]
    {
      seq(|keys|, i requires 0 <= i < |keys| => entries[keys[i]])
    }
  }

  function Empty<K(==,!new), V>(): (m: LinkedMap<K, V>)
    ensures m.Valid() && m.IsEmpty() && m.entries == map[]
  {
    LinkedMap([], map[])
  }

  /** `s` without the occurrences of `k`, in the same order. */
  function Without<K(==,!new)>(s: seq<K>, k: K): (r: seq<K>)
    ensures forall x :: x in r <==> x in s && x != k
    ensures Distinct(s) ==> Distinct(r)
  {
    if s == [] then []
    else if s[0] == k then Without(s[1..], k)
    else
      var tail := Without(s[1..], k);
      assert forall x :: x in tail ==> x in s[1..];
      assert Distinct(s) ==> s[0] !in s[1..];
      [s[0]] + tail
  }

  /** No element occurs twice. */
  ghost predicate Distinct<K>(s: seq<K>) {
    forall i, j :: 0 <= i < j < |s| ==> s[i] != s[j]
  }
}

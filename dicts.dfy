/** Python's `dict`: a finite map that also remembers the order in which its keys
    were first inserted, which is the order `values()` and `items()` follow.
    Assigning to an existing key keeps its place; deleting a key drops it. */
module Dicts {
  import opened Wrappers

  /** `keys` without the key `k`, in the same order. */
  function Without<K(==,!new)>(keys: seq<K>, k: K): (r: seq<K>)
    ensures forall x :: x in r <==> x in keys && x != k
    ensures |r| <= |keys|
    ensures k !in keys ==> r == keys
  {
    if keys == [] then []
    else if keys[0] == k then Without(keys[1..], k)
    else [keys[0]] + Without(keys[1..], k)
  }

  ghost predicate Distinct<K>(keys: seq<K>) {
    forall i, j :: 0 <= i < j < |keys| ==> keys[i] != keys[j]
  }

  lemma {:induction false} WithoutDistinct<K(!new)>(keys: seq<K>, k: K)
    requires Distinct(keys)
    ensures Distinct(Without(keys, k))
  {
    if keys != [] {
      WithoutDistinct(keys[1..], k);
      assert keys[0] !in keys[1..];
      var rest := Without(keys[1..], k);
      if keys[0] != k {
        var r := [keys[0]] + rest;
        forall i, j | 0 <= i < j < |r| ensures r[i] != r[j] {
          if i == 0 {
            assert r[j] in rest;
          }
        }
      }
    }
  }

  datatype Dict<K(==,!new), V> = Dict(keys: seq<K>, items: map<K, V>) {

    ghost predicate Valid() {
      && Distinct(keys)
      && (forall k :: k in items <==> k in keys)
    }

    static function Empty(): (d: Dict<K, V>)
      ensures d.Valid() && d.keys == [] && d.items == map[]
    {
      Dict([], map[])
    }

    /** `d.get(k)`. */
    function Get(k: K): Option<V> {
      if k in items then Some(items[k]) else None
    }

    /** `d[k] = v`. */
    function Put(k: K, v: V): (d: Dict<K, V>)
      requires Valid()
      ensures d.Valid()
      ensures d.items == items[k := v]
      ensures d.keys == if k in items then keys else keys + [k]
    {
      Dict(if k in items then keys else keys + [k], items[k := v])
    }

    /** `del d[k]` (nothing happens when `k` is absent). */
    function Remove(k: K): (d: Dict<K, V>)
      requires Valid()
      ensures d.Valid()
      ensures d.items == items - {k}
      ensures d.keys == Without(keys, k)
    {
      WithoutDistinct(keys, k);
      Dict(Without(keys, k), items - {k})
    }

    /** `list(d.values())`. */
    function Values(): (vs: seq<V>)
      requires Valid()
      ensures |vs| == |keys|
      ensures forall i :: 0 <= i < |keys| ==> vs[i] == items[keys[i]]
    {
      seq(|keys|, i requires 0 <= i < |keys| && keys[i] in items => items[keys[i]])
    }
  }

  /** Stores each of `vs` under its own key, in order, so a later value replaces an
      earlier one with the same key: what loading a saved list into a dict does. */
  function FromList<K(==,!new), V>(vs: seq<V>, key: V -> K): (d: Dict<K, V>)
    ensures d.Valid()
    ensures forall k :: k in d.items ==> key(d.items[k]) == k
    ensures forall k :: k in d.items <==> exists i :: 0 <= i < |vs| && key(vs[i]) == k
  {
    if vs == [] then Dict.Empty()
    else
      var last := vs[|vs| - 1];
      var d := FromList(vs[..|vs| - 1], key);
      assert forall i :: 0 <= i < |vs| - 1 ==> vs[..|vs| - 1][i] == vs[i];
      d.Put(key(last), last)
  }

  /** The value stored under a key is the last one in the list with that key. */
  lemma {:induction false} FromListKeepsLast<K(!new), V>(vs: seq<V>, key: V -> K, i: nat)
    requires i < |vs|
    requires forall j :: i < j < |vs| ==> key(vs[j]) != key(vs[i])
    ensures FromList(vs, key).Get(key(vs[i])) == Some(vs[i])
  {
    if i < |vs| - 1 {
      var prefix := vs[..|vs| - 1];
      assert forall j :: i < j < |prefix| ==> prefix[j] == vs[j];
      FromListKeepsLast(prefix, key, i);
    }
  }

  /** Storing twice under one key is storing the second value. */
  lemma PutTwice<K(!new), V>(d: Dict<K, V>, k: K, v: V, w: V)
    requires d.Valid()
    ensures d.Put(k, v).Put(k, w) == d.Put(k, w)
  {
    assert d.items[k := v][k := w] == d.items[k := w];
  }
}

/** A Python dictionary: a finite map whose iteration order is insertion order. */
module Dicts {

  predicate Distinct<T(==)>(s: seq<T>)
  {
    forall i, j :: 0 <= i < j < |s| ==> s[i] != s[j]
  }

  datatype Dict<K(==,!new), V> = Dict(keys: seq<K>, m: map<K, V>) {

    ghost predicate Valid()
    {
      && Distinct(keys)
      && forall k :: k in keys <==> k in m
    }

    /** Assignment: a new key goes last, an old key keeps its place. */
    function Put(k: K, v: V): (d: Dict<K, V>)
      ensures Valid() ==> d.Valid()
    {
      Dict(if k in m then keys else keys + [k], m[k := v])
    }

    function Remove(k: K): (d: Dict<K, V>)
      ensures Valid() ==> d.Valid()
    {
      Dict(Without(keys, k), m - {k})
    }
  }

  function Without<K(==,!new)>(keys: seq<K>, k: K): (r: seq<K>)
    ensures forall x :: x in r <==> x in keys && x != k
    ensures Distinct(keys) ==> Distinct(r)
    ensures k !in keys ==> r == keys
  {
    if keys == [] then [] else
    var rest := Without(keys[1..], k);
    assert Distinct(keys) ==> keys[0] !in keys[1..];
    if keys[0] == k then rest else [keys[0]] + rest
  }

  /** Sum of a measure over the values, in iteration order. */
  function SumKeys<K(==), V>(keys: seq<K>, m: map<K, V>, f: V -> int): int
  {
    if keys == [] then 0
    else (if keys[0] in m then f(m[keys[0]]) else 0) + SumKeys(keys[1..], m, f)
  }

  function Sum<K(==,!new), V>(d: Dict<K, V>, f: V -> int): int
  {
    SumKeys(d.keys, d.m, f)
  }

  lemma {:induction false} SumKeysSame<K, V>(keys: seq<K>, m: map<K, V>, m': map<K, V>, f: V -> int)
    requires forall k :: k in keys ==> k in m && k in m' && f(m[k]) == f(m'[k])
    ensures SumKeys(keys, m, f) == SumKeys(keys, m', f)
  {
    if keys != [] {
      SumKeysSame(keys[1..], m, m', f);
    }
  }

  lemma {:induction false} SumKeysAppend<K, V>(keys: seq<K>, k: K, m: map<K, V>, f: V -> int)
    requires k in m && forall x :: x in keys ==> x in m
    ensures SumKeys(keys + [k], m, f) == SumKeys(keys, m, f) + f(m[k])
  {
    if keys == [] {
      assert keys + [k] == [k];
    } else {
      assert (keys + [k])[1..] == keys[1..] + [k];
      SumKeysAppend(keys[1..], k, m, f);
    }
  }

  lemma {:induction false} SumKeysWithout<K(!new), V>(keys: seq<K>, k: K, m: map<K, V>, f: V -> int)
    requires Distinct(keys) && k in keys && forall x :: x in keys ==> x in m
    ensures SumKeys(keys, m, f) == SumKeys(Without(keys, k), m, f) + f(m[k])
  {
    if keys[0] == k {
      assert k !in keys[1..];
      assert Without(keys, k) == keys[1..];
    } else {
      SumKeysWithout(keys[1..], k, m, f);
      var rest := Without(keys[1..], k);
      assert Without(keys, k) == [keys[0]] + rest;
      assert ([keys[0]] + rest)[1..] == rest;
    }
  }

  lemma SumRemove<K(!new), V>(d: Dict<K, V>, k: K, f: V -> int)
    requires d.Valid() && k in d.m
    ensures Sum(d.Remove(k), f) == Sum(d, f) - f(d.m[k])
  {
    SumKeysWithout(d.keys, k, d.m, f);
    SumKeysSame(Without(d.keys, k), d.m, d.m - {k}, f);
  }

  /** Replacing a value moves the sum by the difference of the measures; a new key adds its own. */
  lemma SumPut<K(!new), V>(d: Dict<K, V>, k: K, v: V, f: V -> int)
    requires d.Valid()
    ensures Sum(d.Put(k, v), f) == Sum(d, f) + f(v) - if k in d.m then f(d.m[k]) else 0
  {
    var d' := d.Put(k, v);
    if k in d.m {
      SumKeysWithout(d.keys, k, d.m, f);
      SumKeysWithout(d.keys, k, d'.m, f);
      SumKeysSame(Without(d.keys, k), d.m, d'.m, f);
    } else {
      SumKeysAppend(d.keys, k, d'.m, f);
      SumKeysSame(d.keys, d.m, d'.m, f);
    }
  }

  lemma {:induction false} SumKeysMonotone<K, V>(keys: seq<K>, m: map<K, V>, f: V -> int, g: V -> int)
    requires forall k :: k in keys ==> k in m && f(m[k]) <= g(m[k])
    ensures SumKeys(keys, m, f) <= SumKeys(keys, m, g)
  {
    if keys != [] {
      SumKeysMonotone(keys[1..], m, f, g);
    }
  }
}

/**
 * Insertion-ordered dictionaries with the semantics of a JavaScript `Map`
 * and of a plain object's own string keys: setting an existing key replaces
 * its value in place, setting a new key appends it, deleting removes it.
 * Iteration order (the order of `entries`) is the order in which keys were
 * first inserted.
 */
module Ordered {
  import opened Wrappers

  type Entries<K, V> = seq<(K, V)>

  function Keys<K, V>(m: Entries<K, V>): (ks: seq<K>)
    ensures |ks| == |m|
    ensures forall i :: 0 <= i < |m| ==> ks[i] == m[i].0
  {
    if m == [] then [] else [m[0].0] + Keys(m[1..])
  }

  predicate HasKey<K(==), V>(m: Entries<K, V>, k: K) {
    k in Keys(m)
  }

  predicate DistinctKeys<K(==), V>(m: Entries<K, V>) {
    forall i, j :: 0 <= i < j < |m| ==> m[i].0 != m[j].0
  }

  /** `map.get(k)`: the value stored under `k`, if any. */
  function Get<K(==), V>(m: Entries<K, V>, k: K): (r: Option<V>)
    ensures r.None? <==> !HasKey(m, k)
    ensures r.Some? ==> (k, r.value) in m
  {
    if m == [] then None
    else if m[0].0 == k then Some(m[0].1)
    else Get(m[1..], k)
  }

  /** `map.set(k, v)`: overwrite in place when present, append otherwise. */
  function Put<K(==), V>(m: Entries<K, V>, k: K, v: V): (r: Entries<K, V>)
  {
    if m == [] then [(k, v)]
    else if m[0].0 == k then [(k, v)] + m[1..]
    else [m[0]] + Put(m[1..], k, v)
  }

  /** `map.delete(k)`. */
  function Remove<K(==), V>(m: Entries<K, V>, k: K): (r: Entries<K, V>)
  {
    if m == [] then []
    else if m[0].0 == k then Remove(m[1..], k)
    else [m[0]] + Remove(m[1..], k)
  }

  lemma DistinctTail<K, V>(m: Entries<K, V>)
    requires m != [] && DistinctKeys(m)
    ensures DistinctKeys(m[1..]) && !HasKey(m[1..], m[0].0)
  {
  }

  lemma DistinctCons<K, V>(x: (K, V), m: Entries<K, V>)
    requires DistinctKeys(m) && !HasKey(m, x.0)
    ensures DistinctKeys([x] + m)
  {
    var r := [x] + m;
    forall i, j | 0 <= i < j < |r| ensures r[i].0 != r[j].0 {
      if i == 0 {
        assert r[j].0 == Keys(m)[j - 1];
      } else {
        assert r[i] == m[i - 1] && r[j] == m[j - 1];
      }
    }
  }

  /** Put keeps an existing key where it was and appends a new one. */
  lemma {:induction false} PutKeys<K, V>(m: Entries<K, V>, k: K, v: V)
    ensures HasKey(m, k) ==> Keys(Put(m, k, v)) == Keys(m)
    ensures !HasKey(m, k) ==> Keys(Put(m, k, v)) == Keys(m) + [k]
    decreases |m|
  {
    if m != [] && m[0].0 != k {
      PutKeys(m[1..], k, v);
    }
  }

  /** Put makes `k` map to `v` and leaves every other key's value alone. */
  lemma {:induction false} PutGet<K, V>(m: Entries<K, V>, k: K, v: V)
    ensures Get(Put(m, k, v), k) == Some(v)
    ensures forall k' :: k' != k ==> Get(Put(m, k, v), k') == Get(m, k')
    decreases |m|
  {
    if m != [] && m[0].0 != k {
      PutGet(m[1..], k, v);
    }
  }

  /** Put keeps keys distinct. */
  lemma {:induction false} PutDistinct<K, V>(m: Entries<K, V>, k: K, v: V)
    requires DistinctKeys(m)
    ensures DistinctKeys(Put(m, k, v))
    decreases |m|
  {
    if m == [] {
    } else if m[0].0 == k {
      DistinctTail(m);
      DistinctCons((k, v), m[1..]);
    } else {
      DistinctTail(m);
      PutDistinct(m[1..], k, v);
      PutKeys(m[1..], k, v);
      DistinctCons(m[0], Put(m[1..], k, v));
    }
  }

  /** Remove drops `k`, and leaves every other key's value alone. */
  lemma {:induction false} RemoveGet<K, V>(m: Entries<K, V>, k: K)
    ensures !HasKey(Remove(m, k), k)
    ensures forall k' :: k' != k ==> Get(Remove(m, k), k') == Get(m, k')
    ensures !HasKey(m, k) ==> Remove(m, k) == m
    decreases |m|
  {
    if m != [] {
      RemoveGet(m[1..], k);
    }
  }

  /** Remove keeps keys distinct and removes exactly one entry when the key is
      present. */
  lemma {:induction false} RemoveDistinct<K, V>(m: Entries<K, V>, k: K)
    requires DistinctKeys(m)
    ensures DistinctKeys(Remove(m, k))
    ensures HasKey(m, k) ==> |Remove(m, k)| == |m| - 1
    decreases |m|
  {
    if m != [] {
      DistinctTail(m);
      RemoveDistinct(m[1..], k);
      RemoveGet(m[1..], k);
      if m[0].0 != k {
        assert Get(Remove(m[1..], k), m[0].0) == Get(m[1..], m[0].0);
        DistinctCons(m[0], Remove(m[1..], k));
      }
    }
  }

  /** The first entry (the oldest insertion), if any. */
  function First<K, V>(m: Entries<K, V>): (r: Option<(K, V)>)
    ensures r.Some? <==> m != []
    ensures r.Some? ==> r.value == m[0]
  {
    if m == [] then None else Some(m[0])
  }
}

/**
 * A JavaScript `Map` (or plain object with string keys) as the sequence of
 * its entries in insertion order: iteration visits the entries in that order,
 * and setting an existing key keeps its place.
 */
module OrderedMap {
  import opened Base

  type OMap<K, V> = seq<(K, V)>

  /** The keys in iteration order. */
  function Keys<K, V>(m: OMap<K, V>): seq<K> {
    if m == [] then [] else [m[0].0] + Keys(m[1..])
  }

  /** `m.get(k)`: the value of the entry with key `k`. */
  function Get<K(==), V>(m: OMap<K, V>, k: K): Option<V> {
    if m == [] then None
    else if m[0].0 == k then Some(m[0].1)
    else Get(m[1..], k)
  }

  /** `m.get(k) || dflt` for a map whose values are all truthy. */
  function GetOr<K(==), V>(m: OMap<K, V>, k: K, dflt: V): V {
    match Get(m, k)
    case Some(v) => v
    case None => dflt
  }

  /** `m.set(k, v)`: replaces the value in place, or appends a new entry. */
  function Put<K(==), V>(m: OMap<K, V>, k: K, v: V): OMap<K, V> {
    if m == [] then [(k, v)]
    else if m[0].0 == k then [(k, v)] + m[1..]
    else [m[0]] + Put(m[1..], k, v)
  }

  /** `m.has(k)` agrees with `get`: a key has a value exactly when it is one of the keys, and that value is an entry's. */
  lemma {:induction false} GetKeys<K, V>(m: OMap<K, V>, k: K)
    ensures Get(m, k).Some? <==> k in Keys(m)
    ensures Get(m, k).Some? ==> (k, Get(m, k).value) in m
  {
    if m != [] && m[0].0 != k {
      GetKeys(m[1..], k);
      assert m == [m[0]] + m[1..];
    }
  }

  /** After `set`, the key reads the new value and every other key reads what it read before. */
  lemma {:induction false} PutGet<K, V>(m: OMap<K, V>, k: K, v: V, k': K)
    ensures Get(Put(m, k, v), k') == if k' == k then Some(v) else Get(m, k')
  {
    if m != [] && m[0].0 != k {
      PutGet(m[1..], k, v, k');
    }
  }

  /** `set` keeps the key order, and a new key goes last. */
  lemma {:induction false} PutKeys<K, V>(m: OMap<K, V>, k: K, v: V)
    ensures k in Keys(m) ==> Keys(Put(m, k, v)) == Keys(m)
    ensures k !in Keys(m) ==> Keys(Put(m, k, v)) == Keys(m) + [k]
  {
    if m != [] && m[0].0 != k {
      PutKeys(m[1..], k, v);
      assert Keys(Put(m, k, v)) == [m[0].0] + Keys(Put(m[1..], k, v));
    }
  }

  /** Setting a key twice is setting it once, to the second value. */
  lemma {:induction false} PutPut<K, V>(m: OMap<K, V>, k: K, v: V, w: V)
    ensures Put(Put(m, k, v), k, w) == Put(m, k, w)
  {
    if m != [] && m[0].0 != k {
      PutPut(m[1..], k, v, w);
    }
  }

  /** No key occurs twice, as in a real `Map`. */
  predicate DistinctKeys<K(==)>(keys: seq<K>) {
    forall i, j :: 0 <= i < j < |keys| ==> keys[i] != keys[j]
  }

  /** Setting keeps the keys distinct. */
  lemma {:induction false} PutDistinct<K, V>(m: OMap<K, V>, k: K, v: V)
    requires DistinctKeys(Keys(m))
    ensures DistinctKeys(Keys(Put(m, k, v)))
  {
    PutKeys(m, k, v);
  }
}

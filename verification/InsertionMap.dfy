/**
 Maps iterated in the order their keys were first set, as lists of entries with distinct keys.
 */
module InsertionMap {
  import opened Options

  datatype Entry<K, V> = Entry(key: K, value: V)

  function Find<K(==), V>(m: seq<Entry<K, V>>, k: K): Option<V> {
    if m == [] then None else if m[0].key == k then Some(m[0].value) else Find(m[1..], k)
  }

  /** Setting a key that is there keeps its place. */
  function Put<K(==), V>(m: seq<Entry<K, V>>, k: K, v: V): seq<Entry<K, V>> {
    if m == [] then [Entry(k, v)] else if m[0].key == k then [Entry(k, v)] + m[1..] else [m[0]] + Put(m[1..], k, v)
  }

  function Remove<K(==), V>(m: seq<Entry<K, V>>, k: K): seq<Entry<K, V>> {
    if m == [] then [] else if m[0].key == k then m[1..] else [m[0]] + Remove(m[1..], k)
  }

  function Keys<K(==, !new), V>(m: seq<Entry<K, V>>): (keys: set<K>)
    ensures forall k :: k in keys <==> Find(m, k).Some?
  {
    if m == [] then {} else {m[0].key} + Keys(m[1..])
  }

  /** No key occurs twice. */
  ghost predicate Distinct<K, V>(m: seq<Entry<K, V>>) {
    m != [] ==> Find(m[1..], m[0].key) == None && Distinct(m[1..])
  }

  lemma {:induction false} PutFind<K, V>(m: seq<Entry<K, V>>, k: K, v: V, j: K)
    ensures Find(Put(m, k, v), j) == if j == k then Some(v) else Find(m, j)
  {
    if m != [] && m[0].key != k {
      PutFind(m[1..], k, v, j);
    }
  }

  lemma {:induction false} PutDistinct<K, V>(m: seq<Entry<K, V>>, k: K, v: V)
    requires Distinct(m)
    ensures Distinct(Put(m, k, v))
  {
    if m != [] && m[0].key != k {
      PutDistinct(m[1..], k, v);
      PutFind(m[1..], k, v, m[0].key);
    }
  }

  lemma {:induction false} RemoveFind<K, V>(m: seq<Entry<K, V>>, k: K, j: K)
    requires Distinct(m)
    ensures Find(Remove(m, k), j) == if j == k then None else Find(m, j)
  {
    if m != [] && m[0].key != k {
      RemoveFind(m[1..], k, j);
    }
  }

  lemma {:induction false} RemoveDistinct<K, V>(m: seq<Entry<K, V>>, k: K)
    requires Distinct(m)
    ensures Distinct(Remove(m, k))
  {
    if m != [] && m[0].key != k {
      RemoveDistinct(m[1..], k);
      RemoveFind(m[1..], k, m[0].key);
    }
  }
}

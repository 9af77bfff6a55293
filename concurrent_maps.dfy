/** The operations of `java.util.concurrent.ConcurrentHashMap` that the dispatch core uses,
    taken one call at a time (no interleaving of racing callers). */
module ConcurrentMaps {

  /** `m'` keeps every entry of `m` unchanged: a map that is only ever appended to. */
  ghost predicate Extends<K, V>(m: map<K, V>, m': map<K, V>)
  {
    forall k :: k in m ==> k in m' && m'[k] == m[k]
  }

  /** `putIfAbsent`: the first value published for a key wins; later ones are dropped. */
  function PutIfAbsent<K, V>(m: map<K, V>, k: K, v: V): (r: map<K, V>)
    ensures Extends(m, r)
    ensures r.Keys == m.Keys + {k}
    ensures k in m ==> r == m
    ensures k !in m ==> r[k] == v
  {
    if k in m then m else m[k := v]
  }

  lemma ExtendsTransitive<K, V>(a: map<K, V>, b: map<K, V>, c: map<K, V>)
    requires Extends(a, b) && Extends(b, c)
    ensures Extends(a, c)
  {
  }
}

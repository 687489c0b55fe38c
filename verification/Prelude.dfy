/** Small shared vocabulary: optional values, results that carry an error, and map lookup. */
module Prelude {

  datatype Option<+T> = None | Some(value: T)

  datatype Result<+T, +E> = Ok(value: T) | Err(error: E)

  /** The value a map holds at a key, if any (Go's two-result map read). */
  function Get<K, V>(m: map<K, V>, k: K): Option<V> {
    if k in m then Some(m[k]) else None
  }

  /** Two maps that answer every lookup alike are the same map. */
  lemma SameLookups<K(!new), V>(a: map<K, V>, b: map<K, V>)
    requires forall k :: Get(a, k) == Get(b, k)
    ensures a == b
  {
    forall k
      ensures k in a <==> k in b
      ensures k in a ==> a[k] == b[k]
    {
      assert Get(a, k) == Get(b, k);
    }
  }
}

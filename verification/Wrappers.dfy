/** Optional values, shared by every component of the model. */
module Wrappers {

  datatype Option<+T> = None | Some(value: T)

  /** A dictionary lookup that answers None for a missing key. */
  function Get<K, V>(m: map<K, V>, k: K): (r: Option<V>)
    ensures r.Some? <==> k in m
    ensures r.Some? ==> r.value == m[k]
  {
    if k in m then Some(m[k]) else None
  }
}

/**
 * Small shared vocabulary: an optional value, used wherever the JavaScript
 * source has `null` or `undefined` in place of a value.
 */
module Base {

  datatype Option<+T> = None | Some(value: T)

  /** The value stored under `k`, or `None` when `m` has no entry for `k`. */
  function Get<K, V>(m: map<K, V>, k: K): (r: Option<V>)
    ensures r.Some? <==> k in m
    ensures r.Some? ==> r.value == m[k]
  {
    if k in m then Some(m[k]) else None
  }
}

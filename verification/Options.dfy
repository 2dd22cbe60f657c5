/** The conventional optional value, shared by every component. */
module Options {
  datatype Option<+T> = None | Some(value: T)

  /** A map lookup in the two-result form Go gives it. */
  function Lookup<K, V>(m: map<K, V>, k: K): Option<V> {
    if k in m then Some(m[k]) else None
  }
}

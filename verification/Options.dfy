/** The usual optional value, for Go's nil results and absent map entries. */
module Options {

  datatype Option<+T> = None | Some(value: T)

  /** Map lookup that yields None for a missing key. */
  function Find<K, V>(m: map<K, V>, k: K): Option<V> {
    if k in m then Some(m[k]) else None
  }
}

/** Names shared by every module of the model. */
module Types {
  datatype Option<+T> = None | Some(value: T)

  /** Wallet names and database paths are only ever compared for equality. */
  type Wallet(==, !new)
  type Path(==, !new)

  /** One in-flight call of the bridge API. */
  type CallId = nat

  /** A key session of minotari: fresh each time `session::unlock` creates one. */
  type Epoch = nat

  function Get<K, V>(m: map<K, V>, k: K): Option<V> {
    if k in m then Some(m[k]) else None
  }
}

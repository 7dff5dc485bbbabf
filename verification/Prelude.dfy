/** Shared vocabulary of the coordination models. */
module Prelude {
  datatype Option<+T> = None | Some(value: T)

  /** The value stored under `k`, or `default` when the key is absent. */
  function Get<K, V>(m: map<K, V>, k: K, default: V): V {
    if k in m then m[k] else default
  }
}

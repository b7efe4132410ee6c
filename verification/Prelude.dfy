/** Small vocabulary shared by every component model. */
module Prelude {

  datatype Option<+T> = None | Some(value: T) {
    function GetOr(default: T): T {
      match this
      case None => default
      case Some(v) => v
    }
  }

  /** A string the source tests by truthiness: an identity or a session id. */
  type Name = s: string | s != "" witness "anonymous"

  function Lookup<K, V>(m: map<K, V>, k: K): Option<V> {
    if k in m then Some(m[k]) else None
  }
}

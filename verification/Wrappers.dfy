/** The two result shapes every other module uses. */
module Wrappers {
  datatype Option<+T> = None | Some(value: T) {
    function GetOr(default: T): T { if Some? then value else default }
  }

  datatype Result<+T, +E> = Ok(value: T) | Err(error: E)

  /** `map.get(key) ?? fallback`. */
  function Get<K, V>(m: map<K, V>, key: K, fallback: V): V { if key in m then m[key] else fallback }
}

module Basics {
  datatype Option<+T> = None | Some(value: T)

  function Min(a: int, b: int): int {
    if a < b then a else b
  }

  /** What a dictionary has for a key, or the default. */
  function Entry<K, V>(m: map<K, V>, k: K, default: V): V {
    if k in m then m[k] else default
  }
}

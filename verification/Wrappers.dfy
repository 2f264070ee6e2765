/** The small datatypes and helpers that every component shares. */
module Wrappers {

  datatype Option<+T> = None | Some(value: T)

  function Min(a: nat, b: nat): nat {
    if a <= b then a else b
  }

  /** Subtraction that stops at zero. */
  function Monus(a: nat, b: nat): nat {
    if a <= b then 0 else a - b
  }

  function Lookup<K, V>(m: map<K, V>, k: K): Option<V> {
    if k in m then Some(m[k]) else None
  }
}

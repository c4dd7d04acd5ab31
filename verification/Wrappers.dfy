/** Optional and fallible values, and the two ways the components look at a hash map. */
module Wrappers {

  datatype Option<+T> = None | Some(value: T)

  datatype Result<+T, +E> = Ok(value: T) | Err(error: E)

  /** The first value when it is present, otherwise the second. */
  function Or<T>(first: Option<T>, second: Option<T>): Option<T> {
    if first.Some? then first else second
  }

  function Get<K, V>(m: map<K, V>, k: K): Option<V> {
    if k in m then Some(m[k]) else None
  }

  /** One iteration order of a hash map: every key once, in no particular order. */
  predicate Enumerates<K(==)>(order: seq<K>, keys: set<K>) {
    && (set k | k in order) == keys
    && (forall i, j :: 0 <= i < j < |order| ==> order[i] != order[j])
  }
}

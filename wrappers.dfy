/** Swift's `Optional` and the two operations on it that this layer uses:
    the dictionary subscript, which yields `nil` for a missing key, and the
    nil-coalescing operator `??`. */
module Wrappers {

  datatype Option<+T> = None | Some(value: T) {

    /** `self ?? fallback` */
    function GetOr(fallback: T): (r: T)
      ensures Some? ==> r == value
      ensures None? ==> r == fallback
    {
      match this
      case Some(v) => v
      case None => fallback
    }
  }

  /** `dictionary[key]` */
  function Lookup<K, T>(m: map<K, T>, key: K): (r: Option<T>)
    ensures r.Some? <==> key in m
    ensures r.Some? ==> r.value == m[key]
  {
    if key in m then Some(m[key]) else None
  }
}

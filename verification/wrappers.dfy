/** Small failure-aware containers shared by every module of the model. */
module Wrappers {

  /** A value that may be absent: JavaScript's `undefined` for optional fields. */
  datatype Option<+T> = None | Some(value: T) {

    /** The `??` operator: the value if present, otherwise the default. */
    function GetOr(default: T): T {
      match this
      case Some(v) => v
      case None => default
    }
  }

  /** Looks a key up in a store; absent keys read as `None`. */
  function Get<K, V>(m: map<K, V>, k: K): (r: Option<V>)
    ensures r.Some? <==> k in m
    ensures r.Some? ==> r.value == m[k]
  {
    if k in m then Some(m[k]) else None
  }

  /** The first element of a list, or `None` for the empty list (`xs[0]` reads `undefined`). */
  function First<T>(xs: seq<T>): (r: Option<T>)
    ensures r.None? <==> |xs| == 0
    ensures r.Some? ==> r.value == xs[0]
  {
    if |xs| == 0 then None else Some(xs[0])
  }
}

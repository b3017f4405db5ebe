/** The optional value of the source: a JavaScript `undefined`, a missing map
    key or an `Array.prototype.find` that found nothing is `None`. */
module Options {

  datatype Option<+T> = None | Some(value: T) {

    /** `x !== undefined ? x : fallback` */
    function GetOr(fallback: T): T
    {
      match this
      case Some(v) => v
      case None => fallback
    }
  }

  /** The overlay lookup `m[k] !== undefined ? m[k] : fallback` on a JavaScript
      object used as a dictionary. */
  function Lookup<K, V>(m: map<K, V>, k: K): (r: Option<V>)
    ensures r.Some? <==> k in m
    ensures r.Some? ==> r.value == m[k]
  {
    if k in m then Some(m[k]) else None
  }
}

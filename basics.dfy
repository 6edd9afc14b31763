/** Small integer helpers and an optional value, shared by the other modules. */
module Basics {

  /** Python's `max(a, b)` on integers. */
  function Max(a: int, b: int): (m: int)
    ensures m >= a && m >= b
    ensures m == a || m == b
  {
    if a >= b then a else b
  }

  /** Python's `min(a, b)` on integers. */
  function Min(a: int, b: int): (m: int)
    ensures m <= a && m <= b
    ensures m == a || m == b
  {
    if a <= b then a else b
  }

  /** A value that may be absent, as a key missing from a Python dictionary. */
  datatype Option<T> = None | Some(value: T) {
    /** `dict.get(key, default)`: the value when present, else the default. */
    function GetOr(default: T): (r: T)
      ensures Some? ==> r == value
      ensures None? ==> r == default
    {
      match this
      case Some(v) => v
      case None => default
    }
  }
}

/** Optional values: `None` stands for Python's `None`, for a missing dictionary key,
    and (in price series) for a NaN cell. */
module Wrappers {

  datatype Option<+T> = None | Some(value: T) {
    function GetOr(default: T): T {
      match this
      case Some(v) => v
      case None => default
    }
  }

  /** Python's `a > b` on two possibly-NaN floats: any comparison with NaN is false. */
  predicate Gt(a: Option<real>, b: Option<real>) {
    a.Some? && b.Some? && a.value > b.value
  }

  function Min(a: int, b: int): int {
    if a <= b then a else b
  }
}

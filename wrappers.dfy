/** Optional values and success-or-error results, standing for Swift's
    `Optional` and for functions that `throw`. */
module Wrappers {

  datatype Option<+T> = None | Some(value: T) {

    /** Swift's `??` operator: the wrapped value, or `default` when absent. */
    function GetOr(default: T): T {
      match this
      case Some(v) => v
      case None => default
    }
  }

  datatype Result<+T, +E> = Success(value: T) | Failure(error: E)

  /** Swift's `a ?? b` on two optionals: `a` when present, otherwise `b`. */
  function Coalesce<T>(a: Option<T>, b: Option<T>): Option<T> {
    if a.Some? then a else b
  }
}

/** Optional values and results with an error, as used throughout the model. */
module Wrappers {

  /** A value that may be absent: a missing JSON field, `undefined`, `null`. */
  datatype Option<+T> = None | Some(value: T) {
    function GetOr(default: T): T {
      match this
      case Some(v) => v
      case None => default
    }
  }

  /** The outcome of an operation that may throw: `Failure` carries the error message. */
  datatype Result<+R, +E> = Success(value: R) | Failure(error: E)
}

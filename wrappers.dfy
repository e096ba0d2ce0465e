/** Option and Result, the two failure-carrying value types the model uses. */
module Wrappers {

  /** A value that may be absent (an `undefined` or missing field in the source). */
  datatype Option<+T> = None | Some(value: T) {
    function GetOr(default: T): T {
      match this
      case Some(v) => v
      case None => default
    }
  }

  /** A computation that either succeeds with a value or fails with an error. */
  datatype Result<+R, +E> = Success(value: R) | Failure(error: E)
}

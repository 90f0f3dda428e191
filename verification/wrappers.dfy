/** Failure-compatible wrappers used throughout the model. */
module Wrappers {

  /** An optional value: the result of a reader that may reject its input. */
  datatype Option<+T> = None | Some(value: T) {
    function GetOr(default: T): T {
      match this
      case Some(v) => v
      case None => default
    }
  }

  /** The outcome of an operation that either succeeds with a value or fails with an error. */
  datatype Result<+R, +E> = Success(value: R) | Failure(error: E)
}

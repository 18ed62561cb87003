/** Failure-compatible wrappers used for the handlers' thrown errors and for
    JavaScript's `null`/`undefined` values. */
module Wrappers {

  /** A value that may be absent (`null` in the source). */
  datatype Option<+T> = None | Some(value: T) {
    function GetOr(default: T): T {
      match this
      case Some(v) => v
      case None => default
    }
  }

  /** The outcome of a handler that returns a value or throws an error. */
  datatype Result<+T, +E> = Success(value: T) | Failure(error: E)

  /** The outcome of a handler that returns nothing or throws an error. */
  datatype Outcome<+E> = Pass | Fail(error: E)
}

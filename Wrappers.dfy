/** Option and Result: Python's `None` and its raised errors, as values. */
module Wrappers {

  /** A value that may be absent (Python's `Optional[T]`, `None` being absent). */
  datatype Option<+T> = None | Some(value: T) {

    /** The value, or `default` when absent (Python's `x or default` for a non-empty `x`). */
    function GetOr(default: T): T {
      match this
      case Some(v) => v
      case None => default
    }
  }

  /** The outcome of an operation that either returns a value or raises an error. */
  datatype Result<+R, +E> = Success(value: R) | Failure(error: E)
}

/** Option and Result values, standing in for Python's `None` and for raised exceptions. */
module Wrappers {

  /** A value that may be absent (a missing dictionary key, or `None`). */
  datatype Option<+T> = None | Some(value: T) {

    /** The value, or `default` when absent: Python's `dict.get(key, default)`. */
    function GetOr(default: T): T {
      match this
      case Some(v) => v
      case None => default
    }
  }

  /** Either a computed value or the error that would have been raised. */
  datatype Result<+R, +E> = Success(value: R) | Failure(error: E)
}

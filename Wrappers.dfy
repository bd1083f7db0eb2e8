/** Option and Result, used for values the source leaves absent and for its error returns. */
module Wrappers {

  datatype Option<+T> = None | Some(value: T) {
    /** The value carried, or `default` when absent (JavaScript's `x || default`, Python's `.get(k, default)`). */
    function GetOr(default: T): T {
      match this
      case Some(v) => v
      case None => default
    }
  }

  datatype Result<+R, +E> = Success(value: R) | Failure(error: E)
}

/** Option and Result, the failure-carrying values used across the model. */
module Wrappers {

  /** A value that may be absent (JavaScript's `undefined`). */
  datatype Option<+T> = None | Some(value: T) {

    /** The value, or `default` when absent (the `x !== undefined ? x : d` idiom). */
    function GetOr(default: T): T {
      match this
      case Some(v) => v
      case None => default
    }
  }

  /** An operation that either yields a value or reports why it refused. */
  datatype Result<+R, +E> = Success(value: R) | Failure(error: E)
}

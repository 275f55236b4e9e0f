/** The Option and Result datatypes used across the model. */
module Wrappers {

  /** A value that may be absent (Python's `None`). */
  datatype Option<T> = None | Some(value: T) {
    /** The wrapped value, or `default` when absent (Python's `x or default`). */
    function GetOr(default: T): T {
      match this
      case Some(v) => v
      case None => default
    }
  }

  /** The outcome of an endpoint that can fail with an HTTP error. */
  datatype Result<T, E> = Success(value: T) | Failure(error: E)
}

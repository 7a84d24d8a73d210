/** The three shapes of a Go `(value, error)` or `error` return used across the model. */
module Wrappers {

  /** A value that may be missing. */
  datatype Option<+T> = None | Some(value: T) {
    /** The value, or `default` when it is missing. */
    function GetOr(default: T): T {
      if Some? then value else default
    }
  }

  /** A `(value, error)` pair in which exactly one side is meaningful. */
  datatype Result<+T, +E> = Success(value: T) | Failure(error: E)

  /** A bare Go `error`: nil (`Pass`) or not. */
  datatype Outcome<+E> = Pass | Fail(error: E)
}

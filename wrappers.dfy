/** Failure-compatible wrappers shared by the whole model. */
module Wrappers {

  /** A value that may be absent (`undefined` / `null` in the source). */
  datatype Option<+T> = None | Some(value: T) {
    function GetOr(default: T): T {
      match this
      case Some(v) => v
      case None => default
    }
  }

  /** A computation that either produced a value or threw. */
  datatype Result<+T, +E> = Success(value: T) | Failure(error: E)

  /** A computation without a value that either completed or threw. */
  datatype Outcome<+E> = Pass | Fail(error: E)
}

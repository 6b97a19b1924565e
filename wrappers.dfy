/** Failure-carrying values shared by every module of the model. */
module Wrappers {

  /** A value that may be absent (`undefined`/`null` on the JavaScript side). */
  datatype Option<+T> = None | Some(value: T) {
    function GetOr(default: T): T {
      match this
      case Some(v) => v
      case None => default
    }
  }

  /** The outcome of an operation that may throw: `Err` carries the error message. */
  datatype Result<+T, +E> = Ok(value: T) | Err(error: E)
}

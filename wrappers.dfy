/** Failure-carrying values shared by every module of the model. */
module Wrappers {

  datatype Option<+T> = None | Some(value: T) {
    /** The value, or `default` when there is none (what `x ?? default` does). */
    function GetOr(default: T): T {
      match this
      case Some(v) => v
      case None => default
    }
  }

  /** An asynchronous call that resolves with `value` or rejects with `error`. */
  datatype Result<+R, +E> = Success(value: R) | Failure(error: E)

  /** An asynchronous call that resolves with `true` or rejects with `error`. */
  datatype Outcome<+E> = Pass | Fail(error: E)
}

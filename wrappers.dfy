/**
 * Optional values, used wherever the source has `null`, `undefined` or `NaN`,
 * and results of operations that can throw.
 */
module Wrappers {

  datatype Option<+T> = None | Some(value: T) {

    /** The wrapped value, or `default` when there is none. */
    function GetOr(default: T): T {
      match this
      case Some(v) => v
      case None => default
    }
  }

  /** The outcome of an operation that can throw: its value, or the error's message. */
  datatype Result<+T> = Success(value: T) | Failure(error: string)
}

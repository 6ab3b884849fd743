/**
 * Optional values (JavaScript's `undefined`/`null` versus a present value) and
 * the outcome of an operation that may throw.
 */
module Wrappers {

  datatype Option<+T> = None | Some(value: T) {

    /** The value when present, `default` otherwise. */
    function GetOr(default: T): T {
      match this
      case Some(v) => v
      case None => default
    }
  }

  /** A value, or the message of the error the operation throws. */
  datatype Result<+T> = Success(value: T) | Failure(error: string)
}

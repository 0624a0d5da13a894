/** Option and Result, used for the optional values and the thrown errors of the model. */
module Wrappers {

  datatype Option<+T> = None | Some(value: T) {
    /** The value, or `default` when there is none (JavaScript's `x ?? default`). */
    function GetOr(default: T): T {
      match this
      case Some(v) => v
      case None => default
    }
  }

  /** Either a value or the error a call would throw. */
  datatype Result<+R, +E> = Success(value: R) | Failure(error: E)
}

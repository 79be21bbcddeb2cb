/** Optional values and results with an error message, used across the model
    wherever the application has `null`/`undefined` or throws an `Error`. */
module Wrappers {

  datatype Option<+T> = None | Some(value: T) {
    function GetOr(default: T): T {
      match this
      case Some(v) => v
      case None => default
    }
  }

  /** A computation that either produces a value or fails with the message of
      the `Error` the application would have thrown. */
  datatype Result<+T> = Success(value: T) | Failure(error: string)
}

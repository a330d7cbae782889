/**
 * Optional values and success/failure results. `None` stands for a
 * JavaScript `undefined` (an absent key or an unset field); `Failure`
 * stands for a thrown exception or a rejected promise.
 */
module Wrappers {

  datatype Option<+T> = None | Some(value: T) {

    /** The value if present, otherwise `default`. */
    function GetOr(default: T): T {
      match this
      case Some(v) => v
      case None => default
    }
  }

  datatype Result<+T, +E> = Success(value: T) | Failure(error: E)
}

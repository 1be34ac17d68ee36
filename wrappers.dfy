/** Option and Result, the two failure-carrying values the model uses in place of
    JavaScript's `null`/`undefined` and of thrown exceptions. */
module Wrappers {

  /** `None` stands for JavaScript's `null` or `undefined`. */
  datatype Option<+T> = None | Some(value: T) {
    function GetOr(default: T): T {
      match this
      case Some(v) => v
      case None => default
    }
  }

  /** `Failure` carries the message of the exception the source would throw. */
  datatype Result<+R, +E> = Success(value: R) | Failure(error: E)
}

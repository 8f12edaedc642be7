/** Option and Result, used for JavaScript's `null`/`undefined` and for thrown errors. */
module Wrappers {

  /** `None` stands for a JavaScript `null` or `undefined`. */
  datatype Option<+T> = None | Some(value: T) {
    function GetOr(default: T): T {
      match this
      case Some(v) => v
      case None => default
    }
  }

  /** `Failure` stands for an exception the source throws. */
  datatype Result<+R, +E> = Success(value: R) | Failure(error: E)
}

/** Option and Result, used for JavaScript's missing values, NaN and thrown errors. */
module Wrappers {

  datatype Option<+T> = None | Some(value: T) {
    function GetOr(default: T): T {
      match this
      case Some(v) => v
      case None => default
    }
  }

  /** A computation that either produces a value or throws (Failure carries the error message). */
  datatype Result<+R> = Success(value: R) | Failure(error: string)
}

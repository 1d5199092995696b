/** Option and Result, the failure-carrying values used throughout the model. */
module Wrappers {

  /** `None` stands for JavaScript's `null`/`undefined` where the source returns "nothing". */
  datatype Option<+T> = None | Some(value: T) {
    function GetOr(default: T): T {
      match this
      case Some(v) => v
      case None => default
    }
  }

  datatype Result<+R, +E> = Success(value: R) | Failure(error: E)
}

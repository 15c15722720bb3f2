/** The optional and failure-carrying values the rest of the model uses. */
module Wrappers {

  /** Swift's `T?`. */
  datatype Option<+T> = None | Some(value: T) {
    function GetOr(default: T): T {
      match this
      case Some(v) => v
      case None => default
    }
  }

  /** Swift's `Result<Success, Failure>`. */
  datatype Result<+R, +E> = Success(value: R) | Failure(error: E)
}

/** Option and Result, the failure-carrying values used across the model:
    an `Option` stands for a JavaScript value that may be missing, a `Result`
    for an operation that may throw. */
module Wrappers {

  datatype Option<+T> = None | Some(value: T) {
    function GetOr(default: T): T {
      match this
      case Some(v) => v
      case None => default
    }
  }

  /** `Failure(message)` stands for a thrown `Error(message)`. */
  datatype Result<+T> = Success(value: T) | Failure(error: string)
}

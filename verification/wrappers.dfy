/** Option and Result, the failure-carrying values used across the model:
    `Option` stands for a JavaScript value that may be `null`/`undefined`,
    `Result` for an operation that may throw. */
module Wrappers {
  datatype Option<+T> = None | Some(value: T) {
    function GetOr(default: T): T {
      match this
      case Some(v) => v
      case None => default
    }
  }

  datatype Result<+T, +E> = Success(value: T) | Failure(error: E)
}

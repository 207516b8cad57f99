/** Option and Result values used throughout the model.
    `Option` stands for Python's `None`-or-value returns; `Result` stands for
    an operation that either returns normally or propagates an exception,
    whose message is the `Failure` payload. */
module Wrappers {

  datatype Option<+T> = None | Some(value: T) {
    function GetOr(default: T): T {
      match this
      case Some(v) => v
      case None => default
    }
  }

  datatype Result<+R> = Success(value: R) | Failure(error: string)
}

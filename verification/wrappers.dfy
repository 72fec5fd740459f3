/** Failure-compatible wrappers used across the model: `Option` for Python's
    `None`-or-value results and `Result` for a value or a raised exception. */
module Wrappers {

  datatype Option<+T> = None | Some(value: T) {

    /** The value in `Some`, or `default` for `None`. */
    function GetOr(default: T): T {
      match this
      case Some(v) => v
      case None => default
    }
  }

  /** `Failure(e)` stands for the exception `e` propagating to the caller. */
  datatype Result<+R, +E> = Success(value: R) | Failure(error: E)
}

/** Optional values and results with an error, as used by the rest of the model. */
module Wrappers {

  /** A value that may be absent; Python's `X | None`. */
  datatype Option<+T> = None | Some(value: T)

  /** The outcome of an operation that can fail; a Python exception becomes `Failure`. */
  datatype Result<+R, +E> = Success(value: R) | Failure(error: E) {

    /** The success value, or `default` when the operation failed. */
    function GetOr(default: R): R
    {
      match this
      case Success(v) => v
      case Failure(_) => default
    }
  }
}

/** Optional values and results with an error, shared by the other modules. */
module Wrappers {

  /** Python's `Optional[T]`: either `None` or a value. */
  datatype Option<+T> = None | Some(value: T) {

    /** The value, or `default` when there is none. */
    function GetOr(default: T): T {
      match this
      case Some(v) => v
      case None => default
    }
  }

  /** The value a call returns, or the exception it raises. */
  datatype Result<+T, +E> = Success(value: T) | Failure(error: E)
}

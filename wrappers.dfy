/** Optional values and results shared by every module of the model. */
module Wrappers {

  /** A value that may be absent (`undefined` or `null` in the source). */
  datatype Option<+T> = None | Some(value: T) {
    function GetOr(default: T): T {
      match this
      case Some(v) => v
      case None => default
    }
  }

  /** The outcome of an operation that can fail with an error message or reason. */
  datatype Result<+T, +E> = Ok(value: T) | Err(error: E)
}

/** Optional values (Python's `None`) and results with an error case. */
module Wrappers {

  /** A value that may be missing: the screener's nullable numeric fields. */
  datatype Option<+T> = None | Some(value: T) {
    function GetOr(default: T): T {
      match this
      case Some(v) => v
      case None => default
    }
  }

  /** The outcome of an operation that may raise instead of returning. */
  datatype Result<+T, +E> = Ok(value: T) | Err(error: E)
}

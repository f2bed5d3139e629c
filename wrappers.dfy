/** Optional values and error-or-value results, shared by every module. */
module Wrappers {

  /** A reading or hint that may be absent; absence is distinct from any value. */
  datatype Option<+T> = None | Some(value: T) {
    function GetOr(default: T): T {
      match this
      case Some(v) => v
      case None => default
    }
  }

  /** The value of an operation, or the error it returned instead. */
  datatype Result<+R, +E> = Success(value: R) | Failure(error: E)
}

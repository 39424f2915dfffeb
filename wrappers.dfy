/** Optional values and results with an error, shared by every module. */
module Wrappers {

  datatype Option<+T> = None | Some(value: T) {
    function GetOr(default: T): (r: T) {
      match this
      case Some(v) => v
      case None => default
    }
  }

  /** A value or the error the source raises instead of returning. */
  datatype Result<+T, +E> = Success(value: T) | Failure(error: E)
}

/** Optional values and results with an error, as the store and the auth provider hand them back. */
module Wrappers {

  datatype Option<+T> = None | Some(value: T) {
    function GetOr(default: T): T {
      match this
      case Some(v) => v
      case None => default
    }
  }

  datatype Result<+R, +E> = Success(value: R) | Failure(error: E)

  /** Pass, or a failure carrying an error, for operations that return nothing on success. */
  datatype Outcome<+E> = Pass | Fail(error: E)
}

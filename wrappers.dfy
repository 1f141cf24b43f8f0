/** Optional values and success/failure results, used for nullable fields,
    the `null` states of the pages and the HTTP error replies of the backend. */
module Wrappers {

  datatype Option<+T> = None | Some(value: T) {
    function GetOr(default: T): T {
      match this
      case Some(v) => v
      case None => default
    }
  }

  datatype Result<+R, +E> = Success(value: R) | Failure(error: E)
}

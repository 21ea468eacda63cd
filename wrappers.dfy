/** Optional values and success/failure results, standing in for JavaScript's
    `undefined`/`null` and for exceptions caught by a handler's `try`. */
module Wrappers {

  datatype Option<+T> = None | Some(value: T)
  {
    function GetOr(default: T): T
    {
      match this
      case Some(v) => v
      case None => default
    }
  }

  datatype Result<+R, +E> = Success(value: R) | Failure(error: E)
}

/** Optional values and success/failure results: JavaScript's `undefined`/`null`
    and settled promises are written with these. */
module Wrappers {

  datatype Option<+T> = None | Some(value: T) {
    /** The value, or `default` when there is none (JavaScript's `??`). */
    function GetOr(default: T): T {
      match this
      case Some(v) => v
      case None => default
    }
  }

  /** A settled promise: resolved with a value or rejected with a reason. */
  datatype Result<+R, +E> = Success(value: R) | Failure(error: E)
}

/** Optional values and success/failure results, used for PHP's nullable
    properties and for the client's error paths. */
module Wrappers {

  /** A value that may be absent (PHP `null` or an unset property). */
  datatype Option<+T> = None | Some(value: T)

  /** The outcome of an operation that can fail. */
  datatype Result<+R, +E> = Success(value: R) | Failure(error: E)
}

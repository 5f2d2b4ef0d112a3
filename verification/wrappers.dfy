/** Optional values and error-or-value results. */
module Wrappers {

  /** A value that may be absent: a NULL pointer or a NULL column. */
  datatype Option<+T> = None | Some(value: T)

  /** The outcome of a call that either returns a value or raises an error. */
  datatype Result<+R, +E> = Success(value: R) | Failure(error: E)
}

/** Optional values and results with an error, used for JavaScript's `null`
    and for calls that either return or throw. */
module Wrappers {

  datatype Option<+T> = None | Some(value: T)

  datatype Result<+T, +E> = Success(value: T) | Failure(error: E)
}

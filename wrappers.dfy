/** Optional values and error-carrying results, used wherever the Go code
    returns a nil pointer or an `error`. */
module Wrappers {

  datatype Option<+T> = None | Some(value: T)

  datatype Result<+R, +E> = Success(value: R) | Failure(error: E)
}

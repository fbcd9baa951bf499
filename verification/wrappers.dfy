/** Optional values and success-or-error results, the shapes Go expresses with
    nil pointers and `(value, error)` pairs. */
module Wrappers {

  datatype Option<+T> = None | Some(value: T)

  datatype Result<+R, +E> = Success(value: R) | Failure(error: E)
}

/** Optional values and results with an error payload, as the Go code's
    `(value, error)` returns and nil pointers are modelled. */
module Wrappers {

  datatype Option<+T> = None | Some(value: T)

  datatype Result<+T, +E> = Success(value: T) | Failure(error: E)
}

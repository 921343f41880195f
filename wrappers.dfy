/** Optional values and results: a Go pointer that may be nil is an `Option`,
    a Go `(value, error)` pair is a `Result`. */
module Wrappers {

  datatype Option<+T> = None | Some(value: T)

  datatype Result<+T, +E> = Success(value: T) | Failure(error: E)
}

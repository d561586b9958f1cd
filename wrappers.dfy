/** Option and Result, the error-carrying values the rest of the model returns
    where the Go code returns `(value, error)` pairs. */
module Wrappers {

  datatype Option<+T> = None | Some(value: T)

  datatype Result<+T, +E> = Success(value: T) | Failure(error: E)
}

/** Failure-carrying results used throughout the model: `Option` for Go's
    nil-or-pointer returns and `Result` for Go's `(value, error)` pairs. */
module Wrappers {

  datatype Option<+T> = None | Some(value: T)

  datatype Result<+T, +E> = Success(value: T) | Failure(error: E)
}

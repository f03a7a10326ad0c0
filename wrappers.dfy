/** Failure-carrying values: the model's counterpart of Go's `(value, error)` pairs. */
module Wrappers {

  datatype Option<+T> = None | Some(value: T)

  /** `Failure` stands for a non-nil `error`; the Go functions then return a nil value. */
  datatype Result<+T, +E> = Success(value: T) | Failure(error: E)
}

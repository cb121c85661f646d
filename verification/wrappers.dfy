/** Failure-carrying values used across the model: an optional value and a
    success-or-error value, the latter standing for Go's `(value, error)` pairs
    returned by the external lookup service. */
module Wrappers {

  datatype Option<+T> = None | Some(value: T)

  datatype Result<+T, +E> = Success(value: T) | Failure(error: E)
}

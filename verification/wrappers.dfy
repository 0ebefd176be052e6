/** Wrappers used across the model: an optional value and a value-or-error. */
module Wrappers {

  /** A value that may be absent, such as a key missing from a decoded JSON object. */
  datatype Option<+T> = None | Some(value: T)

  /** The outcome of a stage that either produces a value or raises an error. */
  datatype Result<+T, +E> = Success(value: T) | Failure(error: E)
}

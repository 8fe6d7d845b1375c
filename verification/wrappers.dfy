/** Failure-carrying datatypes shared by the rest of the model. */
module Wrappers {

  /** A value that may be absent (Go's `value, ok := m[k]` and nil-able errors). */
  datatype Option<+T> = None | Some(value: T)

  /** Either a computed value or an error. */
  datatype Result<+T, +E> = Success(value: T) | Failure(error: E)

  /** Success without a value, or an error (a Go function returning only `error`). */
  datatype Outcome<+E> = Pass | Fail(error: E)
}

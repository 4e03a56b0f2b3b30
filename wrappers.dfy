/** Failure-carrying wrappers shared by every module of the model. */
module Wrappers {

  /** A value that may be absent: the model's rendering of a nil pointer. */
  datatype Option<+T> = None | Some(value: T)

  /** Either a value or an error; the model's rendering of Go's `(value, error)` pair. */
  datatype Result<+T, +E> = Ok(value: T) | Err(error: E) {
    predicate IsFailure() { Err? }
  }
}

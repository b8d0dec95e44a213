/** Option and Result values shared by every module of the model. */
module Wrappers {

  datatype Option<+T> = None | Some(value: T)

  /** The outcome of an operation that returns a value or an error (Go's `(T, error)`). */
  datatype Result<+T, +E> = Ok(value: T) | Err(error: E)
}

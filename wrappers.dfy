/** Failure-carrying values used in place of Python's exceptions and `None`. */
module Wrappers {

  datatype Option<T> = None | Some(value: T)

  /** The outcome of an operation that can raise: a value, or the error it raised. */
  datatype Result<T, E> = Ok(value: T) | Err(error: E)
}

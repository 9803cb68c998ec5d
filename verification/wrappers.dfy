/** Option and Result, the two failure-carrying datatypes the model uses. */
module Wrappers {

  /** A value that may be absent (a missing dictionary key, an empty cache slot). */
  datatype Option<+T> = None | Some(value: T)

  /** The outcome of an operation that may raise: its value, or the error it raises. */
  datatype Result<+T, +E> = Ok(value: T) | Err(error: E)
}

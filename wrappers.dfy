/** Option and Result values standing in for Java's null, Optional and thrown exceptions. */
module Wrappers {

  /** A value that may be absent: Java's `null` or an empty `Optional`. */
  datatype Option<+T> = None | Some(value: T)

  /** The outcome of a call that either returns a value or throws the exception `error`. */
  datatype Result<+T, +E> = Ok(value: T) | Err(error: E)

  /** The outcome of a `void` call that either returns normally or throws `error`. */
  datatype Outcome<+E> = Pass | Fail(error: E)
}

/** Failure-carrying values used wherever the Java code returns null or throws. */
module Wrappers {

  /** A value that may be absent: Java's `null`. */
  datatype Option<+T> = None | Some(value: T)

  /** A computed value, or the exception that prevented it. */
  datatype Result<+T, +E> = Ok(value: T) | Err(error: E)

  /** Success of an operation that returns nothing, or the exception it raised. */
  datatype Outcome<+E> = Pass | Fail(error: E)
}

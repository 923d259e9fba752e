/** Failure-carrying values: the model's counterpart of Rust's Option and Result. */
module Wrappers {

  datatype Option<+T> = None | Some(value: T)

  /** A result carrying either a value or an error. */
  datatype Result<+R, +E> = Success(value: R) | Failure(error: E)

  /** A result without a value, as Rust's `Result<(), E>`. */
  datatype Outcome<+E> = Pass | Fail(error: E)
}

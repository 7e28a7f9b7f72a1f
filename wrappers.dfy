/** Option and Result, the failure-carrying datatypes used by the feeds model. */
module Wrappers {

  /** A value that may be missing (Ruby's `nil`). */
  datatype Option<+T> = None | Some(value: T)

  /** The outcome of an operation that may raise. */
  datatype Result<+R, +E> = Ok(value: R) | Err(error: E)
}

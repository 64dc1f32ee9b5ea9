/** Option and Result, the two failure-carrying shapes used throughout the model. */
module Wrappers {

  /** A value that may be missing: Python's `None` or an absent key. */
  datatype Option<+T> = None | Some(value: T)

  /** The outcome of a call that may fail with an error of type E. */
  datatype Result<+T, +E> = Ok(value: T) | Err(error: E)
}

/** Option and Result, the two failure-carrying types shared by the modules of the model. */
module Wrappers {

  /** A value that may be absent (Python's `None`, JavaScript's `null`). */
  datatype Option<+T> = None | Some(value: T)

  /** Either a value or the error (an exception, an HTTP error) that replaces it. */
  datatype Result<+R, +E> = Success(value: R) | Failure(error: E)
}

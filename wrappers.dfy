/** Option and Result, the two wrappers the rest of the model returns. */
module Wrappers {

  /** A value that may be missing: Python's None, SQL's NULL. */
  datatype Option<+T> = None | Some(value: T)

  /** The outcome of an operation that can fail with an error value. */
  datatype Result<+R, +E> = Success(value: R) | Failure(error: E)
}

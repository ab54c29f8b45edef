/** Option and Result, the two tagged values the rest of the model returns. */
module Wrappers {

  /** A value that may be absent, as Python's `None`. */
  datatype Option<+T> = None | Some(value: T)

  /** The outcome of a call that either returns a value or raises with a message. */
  datatype Result<+R, +E> = Success(value: R) | Failure(error: E)
}

/** Option and Result, used in place of the source's null values and exceptions. */
module Wrappers {

  datatype Option<+T> = None | Some(value: T)

  /** A computation that succeeded with a value or failed with an error,
      standing for a Python or JavaScript exception. */
  datatype Result<+R, +E> = Success(value: R) | Failure(error: E)
}

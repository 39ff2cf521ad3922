/** Option and Result, shared by the other modules. */
module Wrappers {

  /** A value that may be absent: an unset variable, NaN, a missing key. */
  datatype Option<+T> = None | Some(value: T)

  /** Either a value or the error that was thrown instead. */
  datatype Result<+R, +E> = Success(value: R) | Failure(error: E)
}

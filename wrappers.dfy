/** Failure-carrying values used in place of Go's (value, error) returns. */
module Wrappers {

  /** A nil-or-value result; `None` plays the role of Go's nil error. */
  datatype Option<+T> = None | Some(value: T)

  /** A value on success, an error on failure. */
  datatype Result<+R, +E> = Success(value: R) | Failure(error: E)
}

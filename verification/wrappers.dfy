/** Option and Result values shared by the other modules. */
module Wrappers {

  /** A value that may be absent (an unset field, a missing cookie). */
  datatype Option<+T> = None | Some(value: T)

  /** The outcome of an operation that can throw: a value, or the thrown error. */
  datatype Result<+R, +E> = Success(value: R) | Failure(error: E)
}

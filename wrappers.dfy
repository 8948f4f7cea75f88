/** Failure-carrying wrappers shared by the other modules. */
module Wrappers {

  /** A value that may be absent (Python's `None`, or a lookup that found nothing). */
  datatype Option<+T> = None | Some(value: T)

  /** The outcome of an operation that either succeeds or raises. */
  datatype Result<+T, +E> = Ok(value: T) | Err(error: E)
}

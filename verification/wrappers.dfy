/** Failure-carrying values used by the rest of the model. */
module Wrappers {

  /** A value that may be absent (a null pointer in the source). */
  datatype Option<+T> = None | Some(value: T)

  /** A computed value, or the reason the computation threw. */
  datatype Result<+T, +E> = Success(value: T) | Failure(error: E)
}

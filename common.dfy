/** Failure-compatible wrappers shared by every module of the model. */
module Common {

  /** A value that may be absent: a missing request field, a null column, a missing cookie. */
  datatype Option<+T> = None | Some(value: T)

  /** The outcome of a backend call or of a helper that may throw. */
  datatype Result<+T, +E> = Success(value: T) | Failure(error: E)
}

/** The optional-value and outcome wrappers shared by the whole model. */
module Wrappers {

  /** A value that may be absent: JavaScript's `undefined`/`null` for an optional field. */
  datatype Option<+T> = None | Some(value: T)

  /** The outcome of a computation that may throw: `Failure` carries the exception message. */
  datatype Result<+T, +E> = Success(value: T) | Failure(error: E)
}

/** Failure-compatible wrappers used for absent state fields and for the errors the handlers throw. */
module Wrappers {

  /** A value that may be absent: a sensor-state field not yet reported. */
  datatype Option<+T> = None | Some(value: T)

  /** The value of a decode, or the error it would have thrown. */
  datatype Result<+T, +E> = Success(value: T) | Failure(error: E)

  /** The outcome of a handler call: it completed, or it threw `error`. */
  datatype Outcome<+E> = Pass | Fail(error: E)
}

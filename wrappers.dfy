/** The two failure-carrying datatypes the rest of the model is written with. */
module Wrappers {

  /** A value that may be absent: `undefined`/`null` in the original, or a read that has not arrived. */
  datatype Option<+T> = None | Some(value: T)

  /** The outcome of a step that may throw: its value, or the error it raised. */
  datatype Result<+T, +E> = Success(value: T) | Failure(error: E)
}

/** Option and Result, shared by the other modules. */
module Wrappers {

  /** A value that may be absent: JavaScript's `null` or `undefined` is None. */
  datatype Option<+T> = None | Some(value: T)

  /** The outcome of a step that may throw; Failure carries the error's message. */
  datatype Result<+T, +E> = Success(value: T) | Failure(error: E)
}

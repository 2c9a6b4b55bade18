/** Failure-compatible wrappers shared by the other modules. */
module Wrappers {

  datatype Option<+T> = None | Some(value: T)

  /** The outcome of a step that either yields a value or raises one of the script's errors. */
  datatype Result<+T, +E> = Success(value: T) | Failure(error: E)
}

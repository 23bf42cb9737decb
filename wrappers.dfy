/** Option and Result, the two wrappers the environment loader is written with. */
module Wrappers {

  /** A value that may be missing, as an `undefined` environment variable is. */
  datatype Option<+T> = None | Some(value: T)

  /** The outcome of a step that either produces a value or fails with an error. */
  datatype Result<+T, +E> = Ok(value: T) | Err(error: E)
}

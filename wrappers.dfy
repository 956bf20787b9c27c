/** Optional values and results with an error, used throughout the model. */
module Wrappers {

  /** A value that may be absent: `null`/`undefined` in the client. */
  datatype Option<+T> = None | Some(value: T)

  /** The outcome of a step that either yields a value or fails with an error. */
  datatype Result<+R, +E> = Success(value: R) | Failure(error: E)
}

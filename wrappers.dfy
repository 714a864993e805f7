/** Option and Result, the two wrappers the state cache model needs. */
module Wrappers {

  /** A value that may be absent (`undefined` / `null` in the source). */
  datatype Option<+T> = None | Some(value: T)

  /** The outcome of a computation that may throw. */
  datatype Result<+T> = Success(value: T) | Failure(error: string)
}

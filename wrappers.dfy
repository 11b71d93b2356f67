/** Option and Result, the two failure-carrying shapes the model uses. */
module Wrappers {

  /** A value that may be missing (a TypeScript `T | null`). */
  datatype Option<+T> = None | Some(value: T)

  /** The outcome of a computation that may throw: its value, or what it threw. */
  datatype Result<+T, +E> = Success(value: T) | Failure(error: E)
}

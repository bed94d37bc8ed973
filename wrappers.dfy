/** Optional values and results with an error branch, shared by every module of the model. */
module Wrappers {

  /** A value that may be absent: TypeScript's `T | null` (or a missing field). */
  datatype Option<+T> = None | Some(value: T)

  /** The outcome of an operation that may throw: `Failure` stands for the thrown error. */
  datatype Result<+T, +E> = Success(value: T) | Failure(error: E)
}

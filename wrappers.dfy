/** Optional values and results with an error, used wherever the game's
    TypeScript code has a nullable field or a call that may throw. */
module Wrappers {

  /** A value that may be absent (`null` / `undefined` in the TypeScript code). */
  datatype Option<+T> = None | Some(value: T)

  /** The outcome of an operation that may fail with an error of type E. */
  datatype Result<+T, +E> = Success(value: T) | Failure(error: E)
}

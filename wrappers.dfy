/** Optional values and results: JavaScript's `null`/`undefined` and thrown errors. */
module Wrappers {

  /** A value that may be absent (`null` or `undefined` in the source). */
  datatype Option<+T> = None | Some(value: T)

  /** The outcome of a call that may throw: its value, or what was thrown. */
  datatype Result<+R, +E> = Success(value: R) | Failure(error: E)
}

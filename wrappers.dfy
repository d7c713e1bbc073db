/** Optional values and the two shapes of failure the model uses. */
module Wrappers {

  /** A value that may be absent: JavaScript's `null` / `undefined`. */
  datatype Option<+T> = None | Some(value: T)

  /** A call that either yields a value or throws an error. */
  datatype Result<+T, +E> = Ok(value: T) | Err(error: E)

  /** A call that yields nothing, or throws an error. */
  datatype Outcome<+E> = Pass | Fail(error: E)
}

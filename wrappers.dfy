/** Optional values and results with an error, used by every other module. */
module Wrappers {

  /** A value that may be absent: JavaScript's `undefined`/`null` versus a value. */
  datatype Option<+T> = None | Some(value: T)

  /** The outcome of an operation that either yields a value or throws. */
  datatype Result<+T, +E> = Ok(value: T) | Err(error: E)
}

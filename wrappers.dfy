/** Optional values and results, used where the source code returns
    `undefined` or throws. */
module Wrappers {

  /** A value that may be missing: JavaScript's `undefined` is `None`. */
  datatype Option<+T> = None | Some(value: T)

  /** The outcome of an operation that either returns a value or throws. */
  datatype Result<+T, +E> = Ok(value: T) | Err(error: E)
}

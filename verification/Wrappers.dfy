/** Optional values and results, standing for JavaScript's `undefined`, Python's `None`,
    and for calls that may throw. */
module Wrappers {
  datatype Option<+T> = None | Some(value: T)

  datatype Result<+T, +E> = Ok(value: T) | Err(error: E)
}

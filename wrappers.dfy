/** Optional values and results with an error, as used by the handlers' return paths. */
module Wrappers {

  /** A value that may be absent (a missing form field, a missing JSON property). */
  datatype Option<+T> = None | Some(value: T)

  /** The outcome of an operation that may throw: a value, or the error it raises. */
  datatype Result<+T, +E> = Ok(value: T) | Err(error: E)
}

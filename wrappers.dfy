/** Optional values and results with an error, shared by every module of the model. */
module Wrappers {

  /** A value that may be absent: Python's `None`, JavaScript's `null`. */
  datatype Option<+T> = None | Some(value: T)

  /** The outcome of an operation that can fail (a raised exception or an error reply). */
  datatype Result<+T, +E> = Ok(value: T) | Err(error: E)
}

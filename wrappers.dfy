/** Optional values and results with an error, shared by the other modules. */
module Wrappers {

  /** A value that may be absent: Python's `None` where the source allows it. */
  datatype Option<+T> = None | Some(value: T)

  /** The outcome of an operation that the source may abort by raising an exception. */
  datatype Result<+T, +E> = Ok(value: T) | Err(error: E)
}

/** Optional values and results with an error, for the absent readings and the raised exceptions. */
module Wrappers {

  /** A value that may be missing: Python's `None` or a present value. */
  datatype Option<+T> = None | Some(value: T)

  /** The outcome of a request: a value, or the error that the handler turned into a 400 reply. */
  datatype Result<+T, +E> = Ok(value: T) | Err(error: E)
}

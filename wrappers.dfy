/** Optional values and results with an error, shared by the tracker and weather modules. */
module Wrappers {

  /** Python's `Optional[T]`: `None` or a value. */
  datatype Option<+T> = None | Some(value: T)

  /** The outcome of an operation that may raise: `Ok` with its value, or `Err` with what was raised. */
  datatype Result<+T, +E> = Ok(value: T) | Err(error: E)
}

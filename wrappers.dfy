/** Optional values and the results of operations that can fail. */
module Wrappers {

  /** A value that may be absent; None stands for a Java null. */
  datatype Option<+T> = None | Some(value: T)

  /** The value an operation returns, or the exception it throws instead. */
  datatype Result<+T, +E> = Ok(value: T) | Err(error: E)

  /** The outcome of an operation that returns nothing: it completes or it throws. */
  datatype Outcome<+E> = Pass | Fail(error: E)
}

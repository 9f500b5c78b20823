/** Optional values and results, the shapes the Python code expresses with `None` and exceptions. */
module Wrappers {

  /** `None` or a present value. */
  datatype Option<+T> = None | Some(value: T)

  /** A computed value, or the exception the Python code would raise instead. */
  datatype Result<+T, +E> = Success(value: T) | Failure(error: E)

  /** A statement that either completes or raises. */
  datatype Outcome<+E> = Pass | Fail(error: E)
}

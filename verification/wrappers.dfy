/** Optional values, results with an error, and outcomes of operations that
    return nothing but may fail. */
module Wrappers {

  datatype Option<+T> = None | Some(value: T)

  /** Either a value or the error the source would raise instead. */
  datatype Result<+T, +E> = Success(value: T) | Failure(error: E)

  /** The outcome of an operation that returns nothing or raises. */
  datatype Outcome<+E> = Pass | Fail(error: E)
}

/** Optional values and results that carry an error, used in place of Python's
    None and of raised exceptions. */
module Outcomes {

  /** A value that may be absent (Python's None). */
  datatype Option<+T> = None | Some(value: T)

  /** Either a value or the error the Python code would raise. */
  datatype Result<+R, +E> = Success(value: R) | Failure(error: E)
}

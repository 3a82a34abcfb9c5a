/** Optional values, results with an error, and keyword arguments a Python
    caller may leave out. */
module Wrappers {
  datatype Option<T> = None | Some(value: T)

  datatype Result<T, E> = Ok(value: T) | Err(error: E)

  /** A keyword argument: `Omitted` when the caller does not pass it. */
  datatype Arg<T> = Omitted | Passed(value: T)
}

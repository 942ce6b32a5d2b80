/** Optional values and service results. */
module Wrappers {

  datatype Option<+T> = None | Some(value: T)

  /** A service call either returns a value or raises one of the source's exceptions. */
  datatype Result<+T, +E> = Ok(value: T) | Err(error: E)
}

/** Optional values and results with an error value, shared by the other modules. */
module Wrappers {

  datatype Option<+T> = None | Some(value: T)

  /** The value of a call that either returns normally or raises `error`. */
  datatype Result<+T, +E> = Ok(value: T) | Err(error: E)
}

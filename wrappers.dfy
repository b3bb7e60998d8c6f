/** Optional values and error-carrying results, for JSON nulls, absent lookups, raised exceptions and means of empty series. */
module Wrappers {

  datatype Option<+T> = None | Some(value: T)

  /** The outcome of a call that either returns `value` or raises `error`. */
  datatype Result<+T, +E> = Ok(value: T) | Err(error: E)
}

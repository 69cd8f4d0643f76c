/** Optional values (a JSON key that may be absent) and results (a lookup that may raise). */
module Wrappers {

  datatype Option<+T> = None | Some(value: T)

  datatype Result<+T, +E> = Ok(value: T) | Err(error: E)
}

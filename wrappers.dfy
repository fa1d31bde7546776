/** Optional values and results with an error, for the configuration lookups
    and the exceptions of the bootstrap. */
module Wrappers {

  datatype Option<+T> = None | Some(value: T)

  datatype Result<+T, +E> = Ok(value: T) | Err(error: E)
}

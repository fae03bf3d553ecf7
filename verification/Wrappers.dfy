/** Optional values, and results of operations that can fail. */
module Wrappers {

  datatype Option<T> = Some(value: T) | None

  datatype Result<T> = Ok(value: T) | Err(error: string)
}

/** Optional values (std::optional, a handle that may still be VK_NULL_HANDLE) and
    results of operations that may throw. */
module Wrappers {

  datatype Option<+T> = None | Some(value: T)

  datatype Result<+T, +E> = Ok(value: T) | Err(error: E)
}

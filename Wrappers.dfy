/** Optional values (the source's nullable references) and outcomes of calls that may throw. */
module Wrappers {

  datatype Option<T> = None | Some(value: T)

  datatype Result<T, E> = Success(value: T) | Failure(error: E)
}

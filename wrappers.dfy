/** Optional values and results, as the agents use them: `None` for a missing page element or key,
    `Failure` for an exception the caller sees. */
module Wrappers {

  datatype Option<+T> = None | Some(value: T)

  datatype Result<+T, +E> = Success(value: T) | Failure(error: E)
}

/** Optional values and results: the model's stand-ins for C#'s nullable
    references and for operations that either produce a value or raise. */
module Wrappers {

  datatype Option<+T> = None | Some(value: T)

  datatype Result<+T, +E> = Success(value: T) | Failure(error: E)
}

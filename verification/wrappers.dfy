/** Optional values and success-or-failure results, used for the optional
    fields of server payloads and for the outcome of each form guard. */
module Wrappers {

  datatype Option<+T> = None | Some(value: T)

  datatype Result<+T, +E> = Success(value: T) | Failure(error: E)
}

/** Optional values and results with an error, used for the lookups that may
    fail (`Array.prototype.find` returning `undefined`) and for the operations
    that throw. */
module Wrappers {

  datatype Option<+T> = None | Some(value: T)

  datatype Result<+T, +E> = Success(value: T) | Failure(error: E)
}

/** Option and Result, used for the store's "found or not" answers and for the
    errors the resolvers throw. */
module Wrappers {

  datatype Option<+T> = None | Some(value: T)

  /** A resolver either returns a value or throws an error. */
  datatype Result<+T, +E> = Success(value: T) | Failure(error: E)
}

/** Option and Result, used for the values the servlet may find absent (a query
    string) and for the operations that may throw. */
module Wrappers {

  datatype Option<+T> = None | Some(value: T)

  datatype Result<+R, +E> = Success(value: R) | Failure(error: E)
}

/** Option and Result, the shapes every fallible operation of the client returns. */
module Wrappers {

  datatype Option<+T> = None | Some(value: T)

  /** A Go `(value, *RequestError)` pair: exactly one of the two is meaningful. */
  datatype Result<+R, +E> = Success(value: R) | Failure(error: E)
}

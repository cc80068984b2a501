/** Option and Result: the model's stand-ins for Go's nil pointers and `error` returns. */
module Wrappers {

  datatype Option<+T> = None | Some(value: T)

  /** A value or the text of the Go `error` that was returned instead of it. */
  datatype Result<+R, +E> = Success(value: R) | Failure(error: E)
}

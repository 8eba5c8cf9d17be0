/** Option and Result, the shapes of a JavaScript lookup that may miss and of a
    call that may throw. */
module Wrappers {

  datatype Option<+T> = None | Some(value: T)

  /** A service call either returns a value or throws an error. */
  datatype Result<+T, +E> = Success(value: T) | Failure(error: E)
}

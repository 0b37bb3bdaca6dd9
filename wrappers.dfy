/** Option and Result, the two wrappers the client's operations return. */
module Wrappers {

  datatype Option<+T> = None | Some(value: T)

  /** A raised exception becomes Failure; a normal return becomes Success. */
  datatype Result<+T, +E> = Success(value: T) | Failure(error: E)
}

/** Option and Result, the two failure-carrying wrappers the model uses for
    PHP's nullable values and for the exceptions a call can raise. */
module Results {

  /** A PHP value that may be null. */
  datatype Option<+T> = None | Some(value: T)

  /** What a call returns, or the exception it throws instead. */
  datatype Result<+R, +E> = Success(value: R) | Failure(error: E)
}

/** Optional values and the outcome of an operation that can fail. */
module Results {

  datatype Option<+T> = None | Some(value: T)

  /** Success carries the value, Failure the error that aborted the operation. */
  datatype Result<+T, +E> = Success(value: T) | Failure(error: E)
}

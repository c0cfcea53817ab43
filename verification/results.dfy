/** Option and Result types used for the patcher's absent values and its error paths. */
module Results {

  /** An optional value: a Python attribute or local that may never have been assigned. */
  datatype Option<+T> = None | Some(value: T)

  /** The outcome of an operation that may raise: a value, or the error it raised. */
  datatype Result<+T, +E> = Success(value: T) | Failure(error: E)
}

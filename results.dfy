/** Failure-carrying values shared by the pattern modules. */
module Results {

  /** A value that may be absent (Python's `None`). */
  datatype Option<T> = None | Some(value: T)

  /** The outcome of an operation that can raise: a value or the exception raised. */
  datatype Result<T, E> = Success(value: T) | Failure(error: E)
}

/** Option and Result values for the Go code's `(value, error)` returns. */
module Results {

  datatype Option<+T> = None | Some(value: T)

  /** A Go `(T, error)` pair: exactly one of the two is meaningful. */
  datatype Result<+T> = Success(value: T) | Failure(error: string)
}

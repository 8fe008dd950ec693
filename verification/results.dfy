/** Failure-carrying return shapes used throughout the model: Go's `(T, error)`
    pairs become a `Result`, and a possibly-nil `error` becomes an `Option`. */
module Results {

  /** A value that may be absent; `None` plays the role of Go's nil. */
  datatype Option<+T> = None | Some(value: T)

  /** Either a computed value or the error that stopped the computation. */
  datatype Result<+T, +E> = Success(value: T) | Failure(error: E)
}

/** Failure-carrying wrappers shared by the engine modules. */
module Common {

  /** A value that may be absent: JavaScript's `undefined`/`null` become `None`. */
  datatype Option<+T> = None | Some(value: T)

  /** The outcome of an operation that either yields a value or fails with an error. */
  datatype Result<+T, +E> = Success(value: T) | Failure(error: E)
}

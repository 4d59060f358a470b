/** Small failure-compatible wrappers shared by the other modules. */
module Base {

  /** An optional value: JavaScript's `undefined` is `None`. */
  datatype Option<+T> = None | Some(value: T)

  /** A computation that either yields a value or throws. */
  datatype Result<+T, +E> = Success(value: T) | Failure(error: E)
}

/** Small value types shared by the scanner and the two chunk models. */
module Support {

  /** An unsigned 8-bit value, Rust's `u8`. */
  newtype byte = x: int | 0 <= x < 256

  /** Rust's `Option<T>`. */
  datatype Option<+T> = None | Some(value: T)

  /** The outcome of an operation that either yields a value or fails. */
  datatype Result<+T, +E> = Success(value: T) | Failure(error: E)

  /** The outcome of an operation that yields nothing but may fail. */
  datatype Outcome<+E> = Pass | Fail(error: E)
}

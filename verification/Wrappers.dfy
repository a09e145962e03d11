/** The two wrapper types the other modules share. */
module Wrappers {

  /** A value that may be absent (the program's `None`). */
  datatype Option<+T> = None | Some(value: T)

  /** A returned value, or the exception raised instead of it. */
  datatype Result<+T, +E> = Success(value: T) | Failure(error: E)
}

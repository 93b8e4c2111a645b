/** Failure-carrying values used across the model: Go's `(T, error)` pairs and nil pointers. */
module Wrappers {

  /** A value that may be absent (a nil pointer or a nil error in Go). */
  datatype Option<+T> = None | Some(value: T)

  /** Either a value or the error that prevented it. */
  datatype Result<+T, +E> = Ok(value: T) | Err(error: E)

  /** The error carried by `r`, or None when `r` holds a value. */
  function ErrorOf<T, E>(r: Result<T, E>): Option<E>
  {
    match r
    case Ok(_) => None
    case Err(e) => Some(e)
  }
}

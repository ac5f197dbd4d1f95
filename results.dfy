/** Failure-compatible wrappers used for the places where the Python code
    either returns a value or raises. */
module Results {

  /** A value that may be absent (Python's `None`, or a key missing from a dict). */
  datatype Option<+T> = None | Some(value: T)

  /** The result of an operation that may raise: `Err` carries what was raised. */
  datatype Result<+T, +E> = Ok(value: T) | Err(error: E)
}

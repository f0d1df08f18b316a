/** Success/failure values for the operations whose source raises an exception. */
module Results {

  /** The value an operation produced, or the error it raised. */
  datatype Result<+T, +E> = Ok(value: T) | Err(error: E)

  /** A value, or Python's `None`. */
  datatype Option<+T> = None | Some(value: T)
}

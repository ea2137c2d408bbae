/** Failure-carrying wrappers used for the library's thrown errors. */
module Results {

  /** A value, or the error that was thrown instead of producing it. */
  datatype Result<+T, +E> = Ok(value: T) | Err(error: E)

  /** A JavaScript property that is either present or `undefined`. */
  datatype Option<+T> = None | Some(value: T)
}

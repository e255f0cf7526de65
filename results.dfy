/** Failure-compatible wrappers used by every component of the model. */
module Results {

  datatype Option<+T> = None | Some(value: T)

  /** The value a call returns, or the exception it raises. */
  datatype Result<+T, +E> = Ok(value: T) | Err(error: E)

  /** The outcome of a call that returns nothing: it completes, or it raises. */
  datatype Outcome<+E> = Pass | Fail(error: E)
}

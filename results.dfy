/** Failure-carrying wrappers shared by the adapters and the record model. */
module Results {

  /** A value that may be absent (a JavaScript property that is `undefined`). */
  datatype Option<+T> = None | Some(value: T)

  /** The outcome of an operation that the source either completes or throws from. */
  datatype Result<+T, +E> = Ok(value: T) | Err(error: E)
}

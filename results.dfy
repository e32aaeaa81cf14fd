/** Option and Result: the model's stand-ins for Java's null returns and checked exceptions. */
module Results {

  /** A value that may be absent (a DAO lookup returning null or an empty Optional). */
  datatype Option<+T> = None | Some(value: T)

  /** The outcome of a service call: its return value, or the code of the exception it throws. */
  datatype Result<+T, +E> = Ok(value: T) | Err(error: E)
}

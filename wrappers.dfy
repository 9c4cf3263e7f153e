/** Absent values and error returns, shared by all modules. */
module Wrappers {

  /** A value that may be absent (JavaScript's null, Python's None). */
  datatype Option<T> = None | Some(value: T)

  /** A value, or the message of the error that replaced it. */
  datatype Result<T> = Ok(value: T) | Err(message: string)
}

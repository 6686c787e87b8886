/** Option and Result, the value-level stand-ins for Java's `null` and for
    exceptions that a call may throw. */
module Wrappers {

  datatype Option<+T> = None | Some(value: T)

  datatype Result<+T, +E> = Ok(value: T) | Err(error: E)
}

/** Success-or-error and optional values that the model uses for the exceptions the workout code raises. */
module Wrappers {

  datatype Result<+T, +E> = Ok(value: T) | Err(error: E)

  datatype Option<+T> = None | Some(value: T)
}

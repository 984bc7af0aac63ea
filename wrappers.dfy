/** Option, Result and Outcome: the nullable values and thrown errors of the services. */
module Wrappers {

  datatype Option<+T> = None | Some(value: T)

  /** A value, or the error a service call throws instead. */
  datatype Result<+T, +E> = Ok(value: T) | Err(error: E)

  /** The outcome of a call that returns nothing on success. */
  datatype Outcome<+E> = Pass | Fail(error: E)
}

/** Failure-carrying values for the exceptions the JavaScript code throws and catches. */
module Wrappers {

  datatype Option<T> = None | Some(value: T)

  /** The value of an operation that either returns or throws an error with a message. */
  datatype Result<T> = Ok(value: T) | Err(message: string)

  /** The outcome of an operation that returns nothing or throws an error with a message. */
  datatype Outcome = Pass | Fail(message: string)
}

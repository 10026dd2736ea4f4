/** Option and Result, the two wrappers every other module uses. */
module Wrappers {

  datatype Option<+T> = None | Some(value: T)

  /** The outcome of an operation that either returns a value or throws an
      `Error`; the thrown error is represented by its `message`. */
  datatype Result<+T> = Ok(value: T) | Err(message: string)
}

/** Values for the source's optional fields and raised exceptions. */
module Wrappers {

  datatype Option<+T> = None | Some(value: T)

  datatype Result<+T, +E> = Ok(value: T) | Err(error: E)

  /** How an operation over durable state ends: with a value, with an exception, or with
      the process. */
  datatype Flow<+T, +E> = Go(value: T) | Raise(error: E) | Die
}

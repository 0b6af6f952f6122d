/** Failure-carrying values shared by the modules of this model. */
module Wrappers {

  /** A value that may be absent: an optional field, `undefined`, a failed lookup. */
  datatype Option<+T> = None | Some(value: T)

  /** The outcome of an operation that either returns a value or throws an error with a message. */
  datatype Result<+T, +E> = Ok(value: T) | Err(error: E)
}

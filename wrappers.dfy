/** A value or the exception raised instead of producing it. */
module Wrappers {
  import opened Errors

  datatype Option<T> = None | Some(value: T)

  /** The outcome of a Python call that returns a value or raises. */
  datatype Result<T> = Ok(value: T) | Err(error: Error)

  /** The outcome of a Python call that returns None or raises. */
  datatype Outcome = Pass | Fail(error: Error)
}

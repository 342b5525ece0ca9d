/** Failure-compatible wrappers shared by every module of the model. */
module Wrappers {

  datatype Option<T> = None | Some(value: T)

  /** The Python exceptions that the modelled code can raise. */
  datatype Error = ZeroDivisionError | ValueError | TypeError

  /** A value, or the exception the source would raise instead of returning it. */
  datatype Result<T> = Ok(value: T) | Err(error: Error)
}

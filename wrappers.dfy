/** Option and Result values used across the model for the source's
    "maybe missing" values and for calls that can raise. */
module Wrappers {

  datatype Option<+T> = None | Some(value: T)

  /** The outcome of a call into code outside the model that may raise:
      the value, or the text of the exception (`str(e)`). */
  datatype Result<+T> = Success(value: T) | Failure(error: string)
}

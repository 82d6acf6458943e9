/** Option and Result values used throughout the model. */
module Wrappers {

  /** A Python value that may be `None`. */
  datatype Option<+T> = None | Some(value: T)

  /** The outcome of a call that either returns a value or raises an
      exception whose `str(e)` is `error`. */
  datatype Result<+T> = Ok(value: T) | Err(error: string)
}

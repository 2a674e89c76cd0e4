/** Optional values and error-carrying results, the two shapes Python's
    `None` returns and raised exceptions take in this model. */
module Wrappers {

  /** A value that may be absent (Python `None`). */
  datatype Option<+T> = None | Some(value: T)

  /** Either a value or the text of the exception that was raised instead. */
  datatype Result<+T> = Ok(value: T) | Err(error: string)
}

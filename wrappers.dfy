/** Optional values and success-or-failure results shared by every module of the model. */
module Wrappers {

  /** A value that may be absent: `undefined`/`null` in JavaScript, `None` in Python. */
  datatype Option<+T> = None | Some(value: T)

  /** The outcome of a call that may fail, with the failure's message text. */
  datatype Result<+T, +E> = Ok(value: T) | Err(error: E)
}

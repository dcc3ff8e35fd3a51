/** Option and Result, the failure-carrying datatypes used throughout the model. */
module Wrappers {

  /** A value that may be absent (JavaScript `null`/`undefined` in a callback argument). */
  datatype Option<+T> = None | Some(value: T)

  /** The two ways a Node.js callback is called: `callback(null, value)` or `callback(err)`. */
  datatype Result<+T, +E> = Ok(value: T) | Err(error: E)
}

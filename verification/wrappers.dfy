/** Option and Result, the two failure-carrying shapes the model uses. */
module Wrappers {

  /** A value that may be absent (JavaScript `null` / `undefined` where the source only tests presence). */
  datatype Option<+T> = None | Some(value: T)

  /** The outcome of an operation that can throw: the value, or the thrown error's message. */
  datatype Result<+T> = Ok(value: T) | Err(message: string)
}

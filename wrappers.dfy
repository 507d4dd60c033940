/** Option and Result, the two failure-carrying datatypes the model uses. */
module Wrappers {

  /** A value that may be missing (JavaScript's `undefined`). */
  datatype Option<+T> = None | Some(value: T)

  /** The outcome of a step that can throw: its value, or the reason it threw. */
  datatype Result<+T> = Ok(value: T) | Err(reason: string)
}

/** Option and Result values shared by the modules of this model. */
module Wrappers {

  /** A value that may be absent: `null`/`undefined` in the dashboard's code. */
  datatype Option<+T> = None | Some(value: T)

  /** The outcome of an operation that may throw: `Err` carries the thrown message. */
  datatype Result<+T> = Ok(value: T) | Err(message: string)
}

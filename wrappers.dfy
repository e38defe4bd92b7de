/** Option and Result values for absent values and for the exceptions the pipeline raises. */
module Wrappers {

  datatype Option<+T> = None | Some(value: T)

  /** A computation that either produced a value or raised an exception with message `msg`. */
  datatype Result<+T> = Ok(value: T) | Err(msg: string)
}

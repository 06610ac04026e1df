/** Option and Result values shared by every module of the pipeline. */
module Wrappers {

  datatype Option<+T> = None | Some(value: T)

  /** An operation that either returns a value or throws an error carrying a message. */
  datatype Result<+T> = Ok(value: T) | Err(message: string)
}

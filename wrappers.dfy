/** Optional values and results with an error message, shared by every module. */
module Wrappers {

  datatype Option<T> = None | Some(value: T)

  /** The outcome of a step at which the script may stop (an explicit exit or
      an uncaught exception): `Err` carries the reason. */
  datatype Result<T> = Ok(value: T) | Err(error: string)
}

/** Optional values and fallible results shared by the model. */
module Outcomes {

  /** A value that may be absent: an `undefined` entry, a missing map key. */
  datatype Option<T> = None | Some(value: T)

  /** The outcome of an operation that may throw. */
  datatype Result<T> = Ok(value: T) | Err(message: string)
}

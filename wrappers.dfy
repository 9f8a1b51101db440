/** Option and Result, for the JavaScript values that may be `null` or that carry an error. */
module Wrappers {

  datatype Option<T> = None | Some(value: T)

  /** `{ success: true, ... }` / `{ success: false, error }` results of the auth functions. */
  datatype Result<T> = Ok(value: T) | Err(error: string)
}

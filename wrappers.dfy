/** Failure-compatible wrappers: an optional value (JavaScript's `undefined`) and a
    success-or-error result (a rejected promise or an `Error` return value). */
module Wrappers {

  datatype Option<+T> = None | Some(value: T)

  datatype Result<+T> = Ok(value: T) | Err(message: string)
}

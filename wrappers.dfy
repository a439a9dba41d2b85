/** Result shapes shared by every module: the source signals failure by
    throwing an Error whose message is a string, so both wrappers carry one. */
module Wrappers {

  datatype Option<+T> = None | Some(value: T)

  /** A computation that yields a value or fails with a message. */
  datatype Result<+T> = Ok(value: T) | Err(message: string)

  /** A step that only succeeds or fails with a message (a `Promise<void>`). */
  datatype Outcome = Pass | Fail(message: string)
}

/** Failure-compatible wrappers shared by every module of the model:
    `Option` stands for a TypeScript value that may be `null`, and `Result`
    for a computation that either yields a value or throws an `Error` with a
    message. */
module Wrappers {

  /** A value that may be absent (`null` in the source). */
  datatype Option<+T> = None | Some(value: T)

  /** A value, or the message of the `Error` that was thrown instead. */
  datatype Result<+T> = Ok(value: T) | Err(message: string)
}

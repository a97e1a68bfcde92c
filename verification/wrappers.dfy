/** Failure-compatible wrappers shared by every module of the model:
    `Option` stands for Python's `Optional[...]` and `Result` for a call
    that either returns a value or raises an exception carrying a message. */
module Wrappers {

  datatype Option<+T> = None | Some(value: T)

  datatype Result<+T, +E> = Ok(value: T) | Err(error: E)
}

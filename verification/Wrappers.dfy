// A value that may be missing, and the outcome of a step that may fail; shared by all modules.

module Wrappers {

  datatype Option<T> = None | Some(value: T)

  datatype Result<T, E> = Ok(value: T) | Raise(exc: E)

  /** An error that says no more. */
  datatype Refusal = Invalid

  type Checked<T> = Result<T, Refusal>
}

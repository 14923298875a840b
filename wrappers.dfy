/** Wrappers shared by every module: a nullable value and a value-or-error
    outcome. */
module Wrappers {

  /** A value that may be missing: a TypeScript `T | null`. */
  datatype Option<+T> = None | Some(value: T)

  /** The outcome of a step that can fail: a value, or the reason it failed. */
  datatype Result<+T, +E> = Ok(value: T) | Err(error: E)
}

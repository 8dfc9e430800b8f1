/** Failure-carrying values used in place of PHP's null returns and exceptions. */
module Wrappers {

  /** A value that may be missing (PHP `null`, or an unset array member). */
  datatype Option<+T> = None | Some(value: T)

  /** Either a value or the failure that replaced it. */
  datatype Result<+T, +E> = Ok(value: T) | Err(error: E)
}

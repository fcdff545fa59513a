/** Failure-carrying values used in place of Java's null and exceptions. */
module Wrappers {

  /** `None` stands for a Java `null` result. */
  datatype Option<+T> = None | Some(value: T)

  /** `Err` stands for an exception raised instead of returning a value. */
  datatype Result<+T, +E> = Ok(value: T) | Err(error: E)
}

/** The optional-value type shared by the other modules. */
module Wrappers {
  datatype Option<+T> = None | Some(value: T)

  /** Success, or a failure carrying an error (an exception in the source). */
  datatype Outcome<+E> = Pass | Fail(error: E)
}

/** Option for Java's nullable references, Outcome for operations that may throw. */
module Wrappers {

  datatype Option<+T> = None | Some(value: T)

  /** The result of an operation that returns nothing or throws. */
  datatype Outcome<+E> = Pass | Fail(error: E)
}

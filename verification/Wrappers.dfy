/** The optional value the other modules share. */
module Wrappers {

  /** A pointer that may be NULL. */
  datatype Option<+T> = None | Some(value: T)
}

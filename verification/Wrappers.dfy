/** A pointer that may be NULL, as a value. */
module Wrappers {
  datatype Option<+T> = None | Some(value: T)
}

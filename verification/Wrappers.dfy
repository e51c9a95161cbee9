/** The usual stand-in for a pointer or number that may be missing. */
module Wrappers {
  datatype Option<+T> = None | Some(value: T)
}

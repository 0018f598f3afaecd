/** The optional value used throughout: a missing map entry, a nil pointer, an error return. */
module Wrappers {
  datatype Option<+T> = None | Some(value: T)
}

/** The optional value used where the source has a nil pointer, a NULL datum or a second "ok" result. */
module Wrappers {
  datatype Option<+T> = None | Some(value: T)
}

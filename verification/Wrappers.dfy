/** The usual present-or-absent value. */
module Wrappers {
  datatype Option<+T> = None | Some(value: T)
}

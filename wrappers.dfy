/** The Option type used in place of the source's sentinel values. */
module Wrappers {
  datatype Option<+T> = None | Some(value: T)
}

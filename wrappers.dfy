/** The optional value used wherever the source returns a nullable reference. */
module Wrappers {
  datatype Option<+T> = None | Some(value: T)
}

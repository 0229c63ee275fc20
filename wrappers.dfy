/** The optional value used where the source has a nullable reference or value. */
module Wrappers {
  datatype Option<+T> = None | Some(value: T)
}

/** A value that may be absent: the model of a nullable field. */
module Wrappers {
  datatype Option<+T> = None | Some(value: T)
}

/** A value that may be absent: nil pointers and empty strings of the source. */
module Wrappers {

  datatype Option<+T> = None | Some(value: T)
}

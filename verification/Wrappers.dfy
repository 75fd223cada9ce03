/** A value that may be absent: Go's nil pointers and empty results. */
module Wrappers {
  datatype Option<T> = None | Some(value: T)
}

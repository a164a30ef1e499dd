/** Small failure-carrying datatypes shared by the other modules. */
module Wrappers {

  /** A value that may be absent (a Go nil pointer or nil slice, an optional field). */
  datatype Option<+T> = None | Some(value: T)
}

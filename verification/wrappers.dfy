/** The optional value used for Go's nil pointers and nil interfaces. */
module Wrappers {

  /** `None` plays the part of a nil pointer (or a nil interface value). */
  datatype Option<+T> = None | Some(value: T)
}

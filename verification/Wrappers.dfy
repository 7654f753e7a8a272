/** Shared value types. */
module Wrappers {

  /** A Go pointer, or a value with an "absent" case. */
  datatype Option<+T> = None | Some(value: T)
}

/** The optional value used wherever the source has `T | null` or a value that may be missing. */
module Wrappers {
  datatype Option<+T> = None | Some(value: T)
}

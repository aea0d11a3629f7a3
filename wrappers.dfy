/** The optional value used wherever the source has `T | null` or `undefined`. */
module Wrappers {
  datatype Option<+T> = None | Some(value: T)
}

/** The optional value used wherever the source has `undefined` or a missing reader. */
module Wrappers {
  datatype Option<+T> = None | Some(value: T)
}

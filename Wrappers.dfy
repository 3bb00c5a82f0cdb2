/** The optional value used wherever the source has `undefined`, `null` or a NaN parse. */
module Wrappers {
  datatype Option<+T> = None | Some(value: T)
}

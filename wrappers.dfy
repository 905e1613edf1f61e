/** The optional value used for JavaScript's `null` and for an empty timer slot. */
module Wrappers {
  datatype Option<+T> = None | Some(value: T)
}

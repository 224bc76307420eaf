/** The optional value used for nullable columns and fields. */
module Wrappers {
  datatype Option<+T> = None | Some(value: T)
}

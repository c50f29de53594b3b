/** The optional value used for nullable columns and for absent replies. */
module Wrappers {
  datatype Option<+T> = None | Some(value: T)
}

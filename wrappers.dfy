/** The optional value returned by queries that may find nothing. */
module Wrappers {
  datatype Option<+T> = None | Some(value: T)
}

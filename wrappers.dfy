/** The optional value used for the panel's "last dispatched query" slot. */
module Wrappers {
  datatype Option<+T> = None | Some(value: T)
}

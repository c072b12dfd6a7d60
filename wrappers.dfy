/** The optional value used for the signed-in user and for catalog lookups. */
module Wrappers {
  datatype Option<+T> = None | Some(value: T)
}

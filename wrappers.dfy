/** The optional value used for the tier table's nullable limits. */
module Wrappers {

  datatype Option<+T> = None | Some(value: T)
}

/** The optional value used for the cart's promotion strategy, which the source keeps as a nullable reference. */
module Wrappers {

  datatype Option<+T> = None | Some(value: T)
}

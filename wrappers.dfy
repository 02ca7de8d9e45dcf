/** The optional-value datatype used for absent JavaScript values. */
module Wrappers {

  datatype Option<+T> = None | Some(value: T)
}

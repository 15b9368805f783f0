/** The optional-value datatype used for identifiers that a node only gets once it is saved. */
module Wrappers {

  datatype Option<+T> = None | Some(value: T)
}

/** The optional-value datatype used for operations of the source that can throw. */
module Wrappers {
  datatype Option<+T> = None | Some(value: T)
}

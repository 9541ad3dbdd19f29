/** The optional-value datatype used for dictionary lookups and optional arguments. */
module Wrappers {

  datatype Option<+T> = None | Some(value: T)
}

/** The optional-value datatype used for JavaScript's `null` fields. */
module Wrappers {
  datatype Option<+T> = None | Some(value: T)
}

/** The optional value used for JavaScript's `null` in the component state. */
module Wrappers {
  datatype Option<+T> = None | Some(value: T)
}

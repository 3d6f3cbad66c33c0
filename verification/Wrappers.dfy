/** The optional value used throughout the model for JavaScript's undefined/null and C++'s null. */
module Wrappers {
  datatype Option<+T> = None | Some(value: T)
}

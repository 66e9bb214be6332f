/** A value that may be missing: JavaScript's `undefined` in the scripts. */
module Wrappers {
  datatype Option<+T> = None | Some(value: T)
}

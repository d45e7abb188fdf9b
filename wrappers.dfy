/** A value that may be absent (JavaScript's `null` or a missing event). */
module Wrappers {
  datatype Option<+T> = None | Some(value: T)
}

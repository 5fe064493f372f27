/** A value that may be absent: JavaScript's `null` / `undefined` for the fields the client reads. */
module Wrappers {
  datatype Option<+T> = None | Some(value: T)
}

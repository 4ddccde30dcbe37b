/** The optional value used for a missing table entry (JavaScript `undefined`). */
module Wrappers {
  datatype Option<T> = None | Some(value: T)
}

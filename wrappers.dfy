/** A value that may be absent: JavaScript's `undefined` for a field or
    variable that has not been assigned yet. */
module Wrappers {
  datatype Option<T> = None | Some(value: T)
}

/** Ruby's `nil` for a missing hash key or array index, as an Option. */
module Wrappers {

  datatype Option<T> = None | Some(value: T)
}

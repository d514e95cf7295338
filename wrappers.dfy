/** Option, the value-level stand-in for a nullable pointer. */
module Wrappers {
  datatype Option<+T> = None | Some(value: T)
}

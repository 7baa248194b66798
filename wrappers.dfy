/** Option type for operations whose source throws on malformed input. */
module Wrappers {
  datatype Option<+T> = None | Some(value: T)
}

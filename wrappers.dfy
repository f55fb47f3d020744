/** Option, the stand-in for a null-able pointer or an absent value. */
module Wrappers {
  datatype Option<+T> = None | Some(value: T)
}

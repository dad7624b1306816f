/** Option, for the code's `T | null` values and optional fields. */
module Wrappers {
  datatype Option<+T> = None | Some(value: T)
}

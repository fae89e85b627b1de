/** Option, used where the source returns a value or an error without detail. */
module Wrappers {
  datatype Option<+T> = None | Some(value: T)
}

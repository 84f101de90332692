/** The optional value used where JavaScript yields a value or `null`. */
module Wrappers {
  datatype Option<+T> = None | Some(value: T)
}

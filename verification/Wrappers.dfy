/** The optional result used where the program returns nil or a not-found error. */
module Wrappers {
  datatype Option<+T> = None | Some(value: T)
}

/** The optional value used for handlers that may or may not answer. */
module Wrappers {
  datatype Option<+T> = None | Some(value: T)
}

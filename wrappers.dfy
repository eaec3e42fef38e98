/** The optional value used where a sequence of C calls may stop being defined. */
module Wrappers {
  datatype Option<T> = None | Some(value: T)
}

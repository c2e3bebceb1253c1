/** The optional value used for a seek that may be refused. */
module Wrappers {
  datatype Option<+T> = None | Some(value: T)
}

/** The optional value used for request fields that may be absent. */
module Wrappers {

  datatype Option<+T> = None | Some(value: T)
}

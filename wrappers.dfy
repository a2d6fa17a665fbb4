/** The optional value used for JSON keys that may be absent from a message. */
module Wrappers {

  datatype Option<+T> = None | Some(value: T)
}

/** The optional value used for the record's notification socket, an
    environment variable that may be unset, and a request that may get no reply. */
module Wrappers {
  datatype Option<+T> = None | Some(value: T)
}

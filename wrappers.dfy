/** The optional value used wherever the source passes a possibly-null pointer
    or returns an empty Qt value. */
module Wrappers {

  datatype Option<+T> = None | Some(value: T)
}

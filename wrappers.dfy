/** The optional value returned by a decoder that may find no match. */
module Wrappers {

  datatype Option<+T> = None | Some(value: T)
}

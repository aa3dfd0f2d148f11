/** The optional value used for the results of parsing and decoding. */
module Wrappers {

  datatype Option<+T> = None | Some(value: T)
}

/** The optional value used for Go's "value or nothing" results (an index
    that may be -1, an error that may be nil). */
module Wrappers {

  datatype Option<+T> = None | Some(value: T)
}

/** The optional value that JavaScript writes as `T | undefined`. */
module Wrappers {

  datatype Option<+T> = None | Some(value: T)
}

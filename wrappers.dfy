/** The optional value used for a chunk's slot name. */
module Wrappers {

  datatype Option<+T> = None | Some(value: T)
}

/** The optional value used where an operation can fail to produce a result. */
module Wrappers {

  datatype Option<+T> = None | Some(value: T)
}

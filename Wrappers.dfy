/** The optional value used wherever the source accepts or returns null. */
module Wrappers {

  datatype Option<+T> = None | Some(value: T)
}

/** The optional value used wherever the source returns `null` or has no result. */
module Wrappers {

  datatype Option<+T> = None | Some(value: T)
}

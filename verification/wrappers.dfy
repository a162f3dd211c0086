/** A value that may be absent: a missing dictionary key, a failed step. */
module Wrappers {

  datatype Option<+T> = None | Some(value: T)
}

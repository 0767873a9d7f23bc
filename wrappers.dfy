/** The optional value used for Go's `error` results and for channel contents. */
module Wrappers {

  datatype Option<+T> = None | Some(value: T)
}

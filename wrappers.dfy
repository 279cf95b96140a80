/** The optional value used for Go's nil (an absent writer, formatter or call site). */
module Wrappers {

  datatype Option<+T> = None | Some(value: T)
}

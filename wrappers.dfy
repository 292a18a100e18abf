/** An optional value: a stored item that may be absent, or an input field that may be empty. */
module Wrappers {

  datatype Option<+T> = None | Some(value: T)
}

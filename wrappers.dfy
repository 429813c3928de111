/** The optional value used for the relay's nullable variables (Python `None`). */
module Wrappers {

  datatype Option<+T> = None | Some(value: T)
}

/** The optional value used wherever the server either has something or has nothing. */
module Wrappers {
  datatype Option<+T> = None | Some(value: T)
}

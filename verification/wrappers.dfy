/** The optional value used wherever the client holds `undefined` or `null`. */
module Wrappers {

  datatype Option<+T> = None | Some(value: T)
}

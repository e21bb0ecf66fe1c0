/** The optional value used wherever the browser API may answer `null`. */
module Wrappers {
  datatype Option<+T> = None | Some(value: T)
}

/** Option, for values the JavaScript code sees as possibly `undefined`. */
module Wrappers {
  datatype Option<+T> = None | Some(value: T)
}

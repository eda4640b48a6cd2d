/** The optional value used wherever the JavaScript code yields `undefined`. */
module Wrappers {

  datatype Option<+T> = None | Some(value: T)
}

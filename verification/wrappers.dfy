/** The optional value of the widget's JavaScript code: `undefined` or a value. */
module Wrappers {

  datatype Option<+T> = None | Some(value: T)
}

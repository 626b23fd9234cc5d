/** The optional values the JavaScript code expresses with `undefined` / `null`. */
module Wrappers {

  datatype Option<+T> = None | Some(value: T)
}

/** The optional value the source expresses with `undefined`. */
module Wrappers {

  datatype Option<+T> = None | Some(value: T)
}

/** An optional value, in place of undefined. */
module Wrappers {

  datatype Option<+T> = None | Some(value: T)
}

/** The optional value used for JavaScript's `null`-or-object slots. */
module Wrappers {

  datatype Option<+T> = None | Some(value: T)
}

/** The optional value used for the app's "maybe present" fields. */
module Wrappers {
  datatype Option<+T> = None | Some(value: T)
}

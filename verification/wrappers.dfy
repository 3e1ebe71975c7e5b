/** The optional value used for the view's nullable references. */
module Wrappers {
  datatype Option<+T> = None | Some(value: T)
}

/** The optional value used for a lookup that may find nothing and for a form
    that may decline to submit. */
module Wrappers {
  datatype Option<+T> = None | Some(value: T)
}

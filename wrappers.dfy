/** The optional value used for Python's `None`-or-something attributes and
    dictionary values. */
module Wrappers {
  datatype Option<+T> = None | Some(value: T)
}

/** Python's `None`-or-value, as used for the optional fields and arguments of the fakers. */
module Wrappers {

  datatype Option<+T> = None | Some(value: T)
}

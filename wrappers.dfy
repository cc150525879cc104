/** Python's `None`-or-value, for references and attributes that may be absent. */
module Wrappers {
  datatype Option<+T> = None | Some(value: T)
}

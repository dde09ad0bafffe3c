/** Python's `None`-or-value, used for optional settings (an unset mode) and missing record keys. */
module Opt {
  datatype Option<T> = None | Some(value: T)
}

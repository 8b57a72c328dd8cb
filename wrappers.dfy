/** Python's `None`-or-value, as used for optional strings and failed external calls. */
module Wrappers {

  datatype Option<+T> = None | Some(value: T)
}

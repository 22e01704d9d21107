/** Python's `None`-or-value, as used for the optional dose clamps and the parsed hours. */
module Wrappers {

  datatype Option<+T> = None | Some(value: T)
}

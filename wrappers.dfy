/** Python's `None`-or-value, used for optional arguments and lookups. */
module Wrappers {

  datatype Option<+T> = None | Some(value: T)
}

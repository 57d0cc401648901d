/** Python's `None`-or-value, used for optional dictionaries and raised errors. */
module Wrappers {

  datatype Option<+T> = None | Some(value: T)
}

/** Python's `None`-or-value, as used for optional dictionary entries and analysis results. */
module Wrappers {
  datatype Option<+T> = None | Some(value: T)
}

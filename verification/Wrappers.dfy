/** A value that may be missing: a NULL column, an absent key, Python's None. */
module Wrappers {
  datatype Option<+T> = None | Some(value: T)
}

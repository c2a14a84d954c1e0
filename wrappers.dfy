/** A value that may be absent: the page's `T | null` fields. */
module Wrappers {
  datatype Option<+T> = None | Some(value: T)
}

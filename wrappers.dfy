/** The usual optional-value datatype, used for the host's "may be missing" lookups. */
module Wrappers {
  datatype Option<+T> = None | Some(value: T)
}

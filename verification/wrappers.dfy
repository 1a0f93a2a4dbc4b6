/** The optional-value wrapper used by the request and payload shapes. */
module Wrappers {

  /** A value that may be absent: a missing JSON field, or a falsy one. */
  datatype Option<+T> = None | Some(value: T)
}

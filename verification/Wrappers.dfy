module Wrappers {

  /** A value that may be absent: a nil reference, a missing map entry, an undefined field. */
  datatype Option<+T> = None | Some(value: T)
}

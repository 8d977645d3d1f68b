/** The optional-value wrapper shared by the other modules. */
module Wrappers {

  /** A value that may be absent: JavaScript's `null`/`undefined` or an unset variable. */
  datatype Option<+T> = None | Some(value: T)
}

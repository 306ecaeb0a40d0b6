/** Small value wrappers shared by the scene modules. */
module Wrappers {

  /** A value that may be absent: JavaScript's `null`/`NaN` results. */
  datatype Option<+T> = None | Some(value: T)
}

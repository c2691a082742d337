/** Small shared value types. */
module Wrappers {

  /** A value that may be absent: a missing file, a JavaScript `undefined`
      read past the end of a buffer, or a `NaN` result. */
  datatype Option<+T> = None | Some(value: T)
}

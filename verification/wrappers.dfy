/** Option type shared by the other modules. */
module Wrappers {

  /** A value that may be absent: the model's stand-in for a NULL pointer
      or a "did not parse" result. */
  datatype Option<+T> = None | Some(value: T)
}

/** The optional value used for nullable element references. */
module Wrappers {

  /** `None` plays the part of a script's `null`. */
  datatype Option<+T> = None | Some(value: T)
}

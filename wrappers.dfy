/** Small failure-compatible wrapper used across the model. */
module Wrappers {

  /** An optional value: `None` where the source has nothing to offer. */
  datatype Option<+T> = None | Some(value: T)
}

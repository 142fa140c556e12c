/** The optional-value type used across the model. */
module Wrappers {

  /** `None` stands for the C++ loop that finds nothing (no camera proxy, for one). */
  datatype Option<+T> = None | Some(value: T)
}

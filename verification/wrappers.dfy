/** The optional-value datatype used for JavaScript's `undefined`. */
module Wrappers {

  /** `None` stands for a value that is `undefined`. */
  datatype Option<+T> = None | Some(value: T)
}

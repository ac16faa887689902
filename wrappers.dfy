/** The optional-value datatype used throughout the model. */
module Wrappers {

  /** `None` stands for a missing value or, where a doc comment says so,
      for an evaluation that throws. */
  datatype Option<+T> = None | Some(value: T)
}

/** The optional-value datatype used for claims that a sign-in payload may omit
    and for the nullable picture column of a profile. */
module Wrappers {

  /** `None` stands for JavaScript's `undefined` and `null`. */
  datatype Option<+T> = None | Some(value: T)
}

/** The optional-value datatype used for values the host may report as null. */
module Wrappers {

  /** `None` stands for Java's `null`; `Some(v)` for a present value. */
  datatype Option<+T> = None | Some(value: T)
}

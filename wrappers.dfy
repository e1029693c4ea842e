/** Small failure-carrying datatypes shared by the other modules. */
module Wrappers {

  /** A value that may be absent: pandas' NaT / NaN, a missing JSON key, a missing file. */
  datatype Option<+T> = None | Some(value: T)

  /** The outcome of a call that may raise: `Failed` stands for an exception escaping it. */
  datatype Attempt<+T> = Failed | Done(value: T)
}

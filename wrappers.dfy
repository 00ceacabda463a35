/** The optional value used for the outcome of a step that may raise. */
module Wrappers {

  /** `None` stands for "the call raised an exception". */
  datatype Option<+T> = None | Some(value: T)
}

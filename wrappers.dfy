/** The optional value used for outcomes that may fail. */
module Wrappers {

  /** `None` stands for a call that failed (a rejected promise or an error
      passed to a callback); `Some(v)` for one that delivered `v`. */
  datatype Option<+T> = None | Some(value: T)
}

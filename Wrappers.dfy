/** Value wrappers shared by the registry model. */
module Wrappers {

  /** A value that may be absent; `None` stands for JavaScript's `null`. */
  datatype Option<+T> = None | Some(value: T)

  /** How a JavaScript call ends: it returns a value, or it throws. */
  datatype Outcome<+T> = Returned(value: T) | Threw
}

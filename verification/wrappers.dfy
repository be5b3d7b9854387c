/** Option values for configuration entries that may be left out. */
module Wrappers {

  /** `None` stands for an option the caller did not supply (JavaScript `undefined`). */
  datatype Option<+T> = None | Some(value: T)
}

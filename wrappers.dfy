/** Small value wrappers shared by the model. */
module Wrappers {

  /** PHP `null` versus a present value. */
  datatype Option<+T> = None | Some(value: T)

  /**
   * The state of a PHP typed property that has no default value: reading it
   * before the first assignment is an error ("must not be accessed before
   * initialization"), so it is distinct from a property holding `null`.
   */
  datatype Slot<+T> = Uninitialized | Init(value: T)
}

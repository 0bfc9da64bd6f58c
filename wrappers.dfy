/** Small failure-carrying datatypes shared by the model. */
module Wrappers {

  /** A JavaScript value that may be `undefined` / `null`. */
  datatype Option<+T> = None | Some(value: T)

  /** The outcome of one awaited browser call: it either produced a value or threw. */
  datatype Step<+T> = Done(value: T) | Threw
}

/** The optional value used for the arguments that the pendulum accepts as `None`. */
module Wrappers {

  datatype Option<+T> = None | Some(value: T)
}

/** The optional-value datatype used where the program may or may not have a value. */
module Wrappers {

  datatype Option<+T> = None | Some(value: T)
}

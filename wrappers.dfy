/** Option, the value-or-nothing type used where the source has a nullable value. */
module Wrappers {

  datatype Option<+T> = None | Some(value: T)
}

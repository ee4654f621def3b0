/** Option type for the optional fields of a list request. */
module Wrappers {

  datatype Option<+T> = None | Some(value: T)
}

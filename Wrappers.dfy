/** The optional value used for request parameters that may be missing. */
module Wrappers {

  datatype Option<+T> = None | Some(value: T)

}

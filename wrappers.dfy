/** The optional value used wherever the service may find nothing. */
module Wrappers {

  datatype Option<+T> = None | Some(value: T)

}

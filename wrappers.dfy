/** The optional value used where the service returns a record or nothing. */
module Wrappers {

  datatype Option<+T> = None | Some(value: T)
}

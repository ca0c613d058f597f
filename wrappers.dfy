/** The optional value used for "not found" and "invalid date" throughout the model. */
module Wrappers {

  datatype Option<+T> = None | Some(value: T)

}

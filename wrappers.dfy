/** The optional value used wherever the source holds a nullable reference. */
module Wrappers {

  datatype Option<+T> = None | Some(value: T)

}

/** The optional value used wherever the source has a nullable (`String?`) or absent value. */
module Wrappers {

  datatype Option<+T> = None | Some(value: T)
}

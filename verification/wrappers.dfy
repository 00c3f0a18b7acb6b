/** The optional value that stands for a nullable column or a request argument that may be absent. */
module Wrappers {

  datatype Option<+T> = None | Some(value: T)
}

/** The optional value both models use for Python's `None`. */
module Wrappers {

  datatype Option<T> = None | Some(value: T)

}

/** The optional-value datatype used for Python's None and for conversions that can fail. */
module Wrappers {

  datatype Option<+T> = None | Some(value: T)
}

/** The optional value used throughout the model: `None` stands for Python's `None`
    or for an exception that escapes the function being modelled. */
module Wrappers {
  datatype Option<+T> = None | Some(value: T)
}

/** The optional value of Python's `Optional[...]` parameters: `None` or a value. */
module Wrappers {

  datatype Option<+T> = None | Some(value: T)
}

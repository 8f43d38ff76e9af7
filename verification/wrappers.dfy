/** The optional-value datatype used wherever the generator accepts a
    Python `Optional[...]` argument or may leave a call parameter out. */
module Wrappers {

  datatype Option<+T> = None | Some(value: T)
}

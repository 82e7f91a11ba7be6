/** The failure-carrying datatype the model uses for Python's `Optional[...]`
    values and for operations that raise. */
module Wrappers {

  datatype Option<+T> = None | Some(value: T)
}

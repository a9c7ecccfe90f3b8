/** The conventional optional value; `None` also stands for a Python `None`. */
module Wrappers {

  datatype Option<+T> = None | Some(value: T)
}

/** The optional value shared by both engines (a `None`-able Python
    attribute, a C++ lookup that may find nothing). */
module Wrappers {

  datatype Option<T> = None | Some(value: T)
}

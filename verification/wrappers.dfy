/** The optional value used wherever a Python call either returns a value or raises. */
module Wrappers {

  datatype Option<+T> = None | Some(value: T)
}

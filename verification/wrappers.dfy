/** The optional value used for JavaScript's `undefined`: `None` is a missing
    property or an out-of-range array element. */
module Wrappers {

  datatype Option<+T> = None | Some(value: T)
}

/** Option, the value-or-nothing type used for fields that may be missing
    and for computations that may fail. */
module Wrappers {

  datatype Option<+T> = None | Some(value: T)
}

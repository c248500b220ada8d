/** Option, the value-or-nothing type used for absent JSON fields and for NaN results. */
module Wrappers {
  datatype Option<+T> = None | Some(value: T)
}

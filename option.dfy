/** The optional value used for results that can be absent (an unknown weight, a failed parse). */
module Opt {
  datatype Option<+T> = None | Some(value: T)
}

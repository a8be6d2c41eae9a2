/** An optional value, standing for a field that may be `null`. */
module Wrappers {

  datatype Option<+T> = None | Some(value: T)
}

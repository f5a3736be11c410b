/** The Some/None datatype used for every "may be dropped" result in this model. */
module Wrappers {

  datatype Option<+T> = None | Some(value: T)
}

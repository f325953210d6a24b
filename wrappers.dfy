/** Java references that may be null are modelled as `Option`. */
module Wrappers {

  datatype Option<+T> = None | Some(value: T)
}

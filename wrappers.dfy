/** The optional value used wherever the storefront has `undefined` or `null`. */
module Wrappers {

  datatype Option<+T> = None | Some(value: T)
}

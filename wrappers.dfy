/** The conventional optional value: a venue fetch that failed is `None`. */
module Wrappers {

  datatype Option<+T> = None | Some(value: T)
}

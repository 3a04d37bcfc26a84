/** The optional value used for the services' falsy answers and for the page's nullable state. */
module Wrappers {

  datatype Option<+T> = None | Some(value: T)
}

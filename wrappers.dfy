/** The absent-value marker. JavaScript's `null` result of a lookup is `None`. */
module Wrappers {

  datatype Option<+T> = None | Some(value: T)

}

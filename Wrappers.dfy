/** The optional value used where JavaScript passes `null` (an absent attribute). */
module Wrappers {

  datatype Option<T> = None | Some(value: T)
}

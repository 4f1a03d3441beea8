/** An optional value, used where the card's journey slots may hold nil. */
module Wrappers {
  datatype Option<+T> = None | Some(value: T)
}

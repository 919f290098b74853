/** The optional value used where the source signals "nothing" (a failed read, a rejected state record). */
module Wrappers {
  datatype Option<+T> = None | Some(value: T)
}

/** The optional result the sprite manager's lookups give in place of a null pointer. */
module Wrappers {

  datatype Option<+T> = None | Some(value: T)
}

/** The optional value returned by a dictionary lookup (`dict.get`) and carried by optional fields. */
module Wrappers {

  datatype Option<+T> = None | Some(value: T)
}

/** The optional value the model uses for every nullable Java reference of the library. */
module Wrappers {

  datatype Option<+T> = None | Some(value: T)
}

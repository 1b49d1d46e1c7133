/** The optional value used where the application has "nothing" to show. */
module Wrappers {

  datatype Option<T> = None | Some(value: T)

}

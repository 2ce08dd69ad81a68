/** The optional value the components return or look up. */
module Wrappers {

  datatype Option<+T> = None | Some(value: T)
}

/** The optional value the component uses for "a person or null". */
module Wrappers {

  datatype Option<+T> = None | Some(value: T)
}

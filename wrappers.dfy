/** The optional value the model uses where the source holds `None`. */
module Wrappers {

  datatype Option<+T> = None | Some(value: T)
}

/** The optional value used wherever the program passes a `std::optional`
    or looks up something that may be absent. */
module Wrappers {

  datatype Option<+T> = None | Some(value: T)
}

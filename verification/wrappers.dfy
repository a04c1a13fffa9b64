/** The optional-value type used for `std::optional`, for a possibly null
    `std::unique_ptr` and for a possibly null raw pointer. */
module Wrappers {

  datatype Option<+T> = None | Some(value: T)
}
